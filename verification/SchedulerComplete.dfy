/** Device moves and the completion of events keep the invariant. */
module SchedulerComplete {
  import opened Wrappers
  import opened SchedulerModel
  import opened SchedulerInvariant
  import opened SchedulerBuild

  // ----- Status changes of dispatched events

  /** An event in flight, or dispatched as instantaneous, starts to run or completes. */
  predicate Moves(a: Event, b: Event) {
    && !a.Done() && b == a.(status := b.status, progress := b.progress)
    && ((a.kind == Command && b.status == Running && b.progress == a.progress)
        || (b.status == Complete && b.progress == Notifying(0, false)))
  }

  lemma MoveShape(q: QueueId, qu: Queue, ev: seq<Event>, ev': seq<Event>, e: EventId)
    requires Shape(q, qu, ev) && e in qu.dispatched && e < |ev| == |ev'|
    requires ev' == ev[e := ev'[e]] && Moves(ev[e], ev'[e])
    ensures Shape(q, qu, ev')
  {
    assert forall f: EventId :: Mine(q, ev', f) <==> Mine(q, ev, f);
    assert Sorted(q, qu.list, ev');
    hide Sorted;
    forall f: EventId | Mine(q, ev', f) && f !in qu.list ensures Settled(qu, ev', f) { assert Settled(qu, ev, f); }
  }

  lemma MoveRest(q: QueueId, qu: Queue, ev: seq<Event>, ev': seq<Event>, e: EventId)
    requires Accounting(qu, ev) && Reported(qu, ev) && ScanOk(qu, ev) && Order(q, qu, ev) && Histories(qu, ev)
    requires e in qu.dispatched && e < |ev| == |ev'| && ev' == ev[e := ev'[e]] && Moves(ev[e], ev'[e])
    ensures Accounting(qu, ev') && Reported(qu, ev') && ScanOk(qu, ev') && Order(q, qu, ev') && Obliged(qu)
  {
    assert Outstanding(qu, ev') == Outstanding(qu, ev);
    assert forall f: EventId :: Mine(q, ev', f) <==> Mine(q, ev, f);
    assert forall f: EventId, g: EventId :: Before(q, ev', f, g) <==> Before(q, ev, f, g);
    assert forall f: EventId :: Settled(qu, ev, f) ==> Settled(qu, ev', f);
    assert e !in qu.accounted;
  }

  lemma MoveQueue(q: QueueId, qu: Queue, ev: seq<Event>, ev': seq<Event>, e: EventId)
    requires QueueOk(q, qu, ev) && e in qu.dispatched && e < |ev| == |ev'|
    requires ev' == ev[e := ev'[e]] && Moves(ev[e], ev'[e])
    ensures QueueOk(q, qu, ev')
  {
    hide Order, Accounting, Reported, ScanOk;
    MoveShape(q, qu, ev, ev', e);
    MoveRest(q, qu, ev, ev', e);
  }

  /** A completion that begins owes a notification to every dependent. */
  lemma MoveOwes(a: Event, b: Event, f: EventId)
    requires Moves(a, b) && Owes(a, f)
    ensures Owes(b, f)
  {
    var j :| 0 <= j < |a.dependents| && a.dependents[j] == f && NotReached(a, j);
    assert b.dependents[j] == f && NotReached(b, j);
  }

  lemma MoveWaits(ev: seq<Event>, ev': seq<Event>, e: EventId)
    requires WaitsOk(ev) && e < |ev| == |ev'| && ev' == ev[e := ev'[e]] && Moves(ev[e], ev'[e])
    ensures WaitsOk(ev')
  {
    assert forall x, f: EventId :: 0 <= x < |ev| && Owes(ev[x], f) ==> Owes(ev'[x], f) by {
      forall x, f: EventId | 0 <= x < |ev| && Owes(ev[x], f) ensures Owes(ev'[x], f) {
        if x == e { MoveOwes(ev[e], ev'[e], f); }
      }
    }
    forall f | 0 <= f < |ev| ensures WaitOk(ev', f) { FrameWait(ev, ev', f); }
  }

  lemma MoveQueues(s: State, e: EventId, ev': seq<Event>)
    requires QueuesOk(s) && e < |s.events| == |ev'| && ev' == s.events[e := ev'[e]] && Moves(s.events[e], ev'[e])
    requires s.events[e].parent.Some? ==> InDispatched(s, e)
    ensures QueuesOk(s.(events := ev'))
  {
    forall q | 0 <= q < |s.queues| ensures QueueOk(q, s.queues[q], ev') {
      hide QueueOk;
      if s.events[e].parent == Some(q) {
        MoveQueue(q, s.queues[q], s.events, ev', e);
      } else {
        QuietOther(s.events, ev', e, q);
        FrameQueue(q, s.queues[q], s.events, ev');
      }
    }
  }

  lemma MoveKeeps(s: State, e: EventId, v: Event)
    requires Inv(s) && e < |s.events| && Moves(s.events[e], v)
    requires s.events[e].kind == User || InDispatched(s, e)
    requires v.status == Running ==> s.events[e].status == Submitted
    ensures Inv(s.(events := s.events[e := v]))
  {
    hide QueueOk, WaitOk;
    var ev' := s.events[e := v];
    assert EventTyped(s.events[e], |s.events|, |s.queues|) && EventOk(s.events[e], s.clock);
    DispatchedMine(s, e);
    assert EventTyped(v, |ev'|, |s.queues|) && EventOk(v, s.clock);
    MoveWaits(s.events, ev', e);
    MoveQueues(s, e, ev');
    hide EventTyped, EventOk;
    TypedAt(s, ev', e);
  }

  lemma DispatchedMine(s: State, e: EventId)
    requires QueuesOk(s) && e < |s.events|
    ensures InDispatched(s, e) ==> s.events[e].stage.Enqueued?
  {
    if InDispatched(s, e) {
      assert QueueOk(s.events[e].parent.value, s.queues[s.events[e].parent.value], s.events);
    }
  }

  // ----- Notifications

  /** Wait sets may shrink, and the dependents loop may advance. */
  predicate Softly(a: Event, b: Event) {
    b == a.(waits := b.waits, progress := b.progress) && (a.waits == [] ==> b.waits == [])
  }

  /** A wait set that becomes empty, or a completion that ends, leaves a push behind. */
  ghost predicate SoftFor(q: QueueId, qu: Queue, ev: seq<Event>, ev': seq<Event>) {
    && |ev| == |ev'|
    && (forall f :: 0 <= f < |ev| ==> Softly(ev[f], ev'[f]))
    && (forall f :: 0 <= f < |ev| && ev[f].parent == Some(q) && ev[f].waits != [] && ev'[f].waits == [] ==> Obliged(qu))
    && (forall f :: 0 <= f < |ev| && ev[f].parent == Some(q) && ev[f].progress != ev'[f].progress ==>
          (ev'[f].progress.Notifying?
           && (ev'[f].progress.pushed ==> ev[f].progress.Notifying? && ev[f].progress.pushed))
          || Announced(qu, f) || (ev[f].progress.Notifying? && ev[f].progress.pushed))
  }

  lemma SoftShape(q: QueueId, qu: Queue, ev: seq<Event>, ev': seq<Event>)
    requires Shape(q, qu, ev) && SoftFor(q, qu, ev, ev')
    ensures Shape(q, qu, ev')
  {
    assert forall f: EventId :: Mine(q, ev', f) <==> Mine(q, ev, f);
    assert Sorted(q, qu.list, ev');
    hide Sorted;
    assert forall f :: f in qu.dispatched ==> Mine(q, ev, f) && Softly(ev[f], ev'[f]);
    forall f: EventId | Mine(q, ev', f) && f !in qu.list ensures Settled(qu, ev', f) { assert Settled(qu, ev, f); }
  }

  lemma SoftRest(q: QueueId, qu: Queue, ev: seq<Event>, ev': seq<Event>)
    requires Shape(q, qu, ev) && SoftFor(q, qu, ev, ev')
    requires Accounting(qu, ev) && Reported(qu, ev) && ScanOk(qu, ev) && Order(q, qu, ev)
    ensures Accounting(qu, ev') && Reported(qu, ev') && ScanOk(qu, ev') && Order(q, qu, ev')
  {
    assert Outstanding(qu, ev') == Outstanding(qu, ev);
    assert forall f :: f in qu.dispatched ==> Mine(q, ev, f);
    assert Reported(qu, ev');
    hide Shape, Reported;
    assert forall f: EventId :: Mine(q, ev', f) <==> Mine(q, ev, f);
    assert forall f: EventId, g: EventId :: Before(q, ev', f, g) <==> Before(q, ev, f, g);
    assert forall f: EventId :: Settled(qu, ev, f) ==> Settled(qu, ev', f);
  }

  lemma SoftQueue(q: QueueId, qu: Queue, ev: seq<Event>, ev': seq<Event>)
    requires QueueOk(q, qu, ev) && SoftFor(q, qu, ev, ev')
    ensures QueueOk(q, qu, ev')
  {
    hide Order, Accounting, Reported, ScanOk, Histories;
    SoftShape(q, qu, ev, ev');
    SoftRest(q, qu, ev, ev');
    if i: nat :| BlockedAt(qu.list, ev, i) {
      if !Obliged(qu) {
        assert Mine(q, ev, qu.list[i]);
        assert BlockedAt(qu.list, ev', i);
      }
    }
  }

  lemma SoftQueues(s: State, ev': seq<Event>)
    requires QueuesOk(s)
    requires forall q :: 0 <= q < |s.queues| ==> SoftFor(q, s.queues[q], s.events, ev')
    ensures QueuesOk(s.(events := ev'))
  {
    hide QueueOk, SoftFor;
    forall q | 0 <= q < |s.queues| ensures QueueOk(q, s.queues[q], ev') {
      SoftQueue(q, s.queues[q], s.events, ev');
    }
  }

  /** The parent queue has dispatched every event of it that is complete. */
  lemma DoneDispatched(q: QueueId, qu: Queue, ev: seq<Event>, e: EventId)
    requires Shape(q, qu, ev) && Mine(q, ev, e) && ev[e].Done()
    ensures e in qu.dispatched
  {
    if e !in qu.list { assert Settled(qu, ev, e); }
  }

  lemma WithoutFacts(list: seq<EventId>, x: EventId)
    ensures forall y :: y in Without(list, x) <==> y in list && y != x
  {
    if list != [] {
      WithoutFacts(list[1..], x);
      assert list == [list[0]] + list[1..];
    }
  }

  /** The events after `x` notified its dependent number `next`. */
  ghost predicate Notified(ev: seq<Event>, ev': seq<Event>, x: EventId, d: EventId, pushed: bool) {
    && x < |ev| == |ev'| && d < |ev| && ev[x].Done() && ev[x].progress.Notifying?
    && ev[x].progress.next < |ev[x].dependents| && ev[x].dependents[ev[x].progress.next] == d
    && !ev[d].stage.Building?
    && (forall f :: 0 <= f < |ev| ==> ev'[f] == ev[f].(
         waits := if f == d then Without(ev[d].waits, x) else ev[f].waits,
         progress := if f == x then Notifying(ev[x].progress.next + 1, pushed) else ev[f].progress))
  }

  lemma NotifyOwes(ev: seq<Event>, ev': seq<Event>, x: EventId, d: EventId, pushed: bool, y: EventId, f: EventId)
    requires Notified(ev, ev', x, d, pushed) && y < |ev| && Owes(ev[y], f) && (y != x || f != d)
    ensures Owes(ev'[y], f)
  {
    var j :| 0 <= j < |ev[y].dependents| && ev[y].dependents[j] == f && NotReached(ev[y], j);
    assert ev'[y].dependents[j] == f && NotReached(ev'[y], j);
  }

  lemma NotifyWaits(ev: seq<Event>, ev': seq<Event>, x: EventId, d: EventId, pushed: bool)
    requires WaitsOk(ev) && Notified(ev, ev', x, d, pushed)
    ensures WaitsOk(ev')
  {
    forall f | 0 <= f < |ev| ensures WaitOk(ev', f) {
      assert WaitOk(ev, f);
      forall y | 0 <= y < |ev| && Owes(ev[y], f) && (y != x || f != d) ensures Owes(ev'[y], f) {
        NotifyOwes(ev, ev', x, d, pushed, y, f);
      }
      if f != d {
        FrameWait(ev, ev', f);
      } else {
        WithoutFacts(ev[d].waits, x);
        assert Treated(ev'[d]) == Treated(ev[d]);
        forall y | y in ev'[d].waitList ensures Nameable(ev', y) && Earlier(ev'[y], ev'[d]) { assert Nameable(ev, y); }
      }
    }
  }

  lemma NotifySoft(q: QueueId, qu: Queue, ev: seq<Event>, ev': seq<Event>, x: EventId, d: EventId, pushed: bool)
    requires Notified(ev, ev', x, d, pushed)
    requires ev[d].parent == Some(q) && ev'[d].waits == [] ==> Obliged(qu)
    requires ev[x].parent == Some(q) && pushed && !ev[x].progress.pushed ==> Announced(qu, x)
    ensures SoftFor(q, qu, ev, ev')
  {
    WithoutFacts(ev[d].waits, x);
  }

  /** The state before the dependents loop advances, with the push of this iteration already pending. */
  lemma NotifyPush(s: State, q: QueueId, p: Push, x: EventId)
    requires Inv(s) && q < |s.queues| && x < |s.events| && s.events[x].Done()
    requires p.completed == if s.events[x].parent == Some(q) then Some(x) else None
    ensures Inv(AddPush(s, q, p)) && Obliged(AddPush(s, q, p).queues[q])
    ensures s.events[x].parent == Some(q) ==> Announced(AddPush(s, q, p).queues[q], x)
  {
    if s.events[x].parent == Some(q) {
      assert EventOk(s.events[x], s.clock) && EventTyped(s.events[x], |s.events|, |s.queues|);
      assert QueueOk(q, s.queues[q], s.events);
      DoneDispatched(q, s.queues[q], s.events, x);
    }
    AddPushKeeps(s, q, p);
    hide Inv;
    assert p in AddPush(s, q, p).queues[q].pushes;
  }

  lemma NotifiedKeeps(s: State, ev': seq<Event>, x: EventId, d: EventId, pushed: bool)
    requires Inv(s) && Notified(s.events, ev', x, d, pushed)
    requires forall q | 0 <= q < |s.queues| && s.events[d].parent == Some(q) && ev'[d].waits == [] ::
      Obliged(s.queues[q])
    requires pushed && !s.events[x].progress.pushed ==>
      forall q | 0 <= q < |s.queues| && s.events[x].parent == Some(q) :: Announced(s.queues[q], x)
    ensures Inv(s.(events := ev'))
  {
    forall q | 0 <= q < |s.queues| ensures SoftFor(q, s.queues[q], s.events, ev') {
      NotifySoft(q, s.queues[q], s.events, ev', x, d, pushed);
    }
    SoftQueues(s, ev');
    NotifyWaits(s.events, ev', x, d, pushed);
    NotifyTyped(s, ev', x, d, pushed);
  }

  lemma NotifyTyped(s: State, ev': seq<Event>, x: EventId, d: EventId, pushed: bool)
    requires Typed(s) && EventsOk(s.events, s.clock) && Notified(s.events, ev', x, d, pushed)
    ensures Typed(s.(events := ev')) && EventsOk(ev', s.clock)
  {
    WithoutFacts(s.events[d].waits, x);
    forall f | 0 <= f < |ev'| ensures EventTyped(ev'[f], |ev'|, |s.queues|) && EventOk(ev'[f], s.clock) {
      assert EventTyped(s.events[f], |s.events|, |s.queues|) && EventOk(s.events[f], s.clock);
    }
  }

  lemma NotifyNotified(s: State, x: EventId)
    requires Enabled(s, Notify(x)) && s.events[x].Done()
    ensures Notified(s.events, NotifyEvents(s, x), x, Dependent(s, x), s.events[x].progress.pushed || WakesOwn(s, x))
  {
  }

  lemma NotifyKeeps(s: State, x: EventId)
    requires Inv(s) && Enabled(s, Notify(x))
    ensures Inv(ApplyNotify(s, x))
  {
    hide QueueOk, WaitOk, Obliged, Announced;
    var d, ev' := Dependent(s, x), NotifyEvents(s, x);
    var q := s.events[d].parent;
    var pushed := s.events[x].progress.pushed || WakesOwn(s, x);
    assert EventOk(s.events[x], s.clock) && EventTyped(s.events[d], |s.events|, |s.queues|);
    NotifyNotified(s, x);
    assert ev'[d].waits == Without(s.events[d].waits, x);
    hide NotifyEvents;
    if Wakes(s, x) {
      var p := Push(Some(d), if WakesOwn(s, x) then Some(x) else None);
      NotifyPush(s, q.value, p, x);
      NotifiedKeeps(AddPush(s, q.value, p), ev', x, d, pushed);
    } else {
      NotifiedKeeps(s, ev', x, d, pushed);
    }
  }

  // ----- End of a completion

  lemma FinishWaits(ev: seq<Event>, ev': seq<Event>, x: EventId)
    requires WaitsOk(ev) && x < |ev| == |ev'| && ev[x].Done() && ev[x].progress.Notifying?
    requires ev[x].progress.next == |ev[x].dependents| && ev' == ev[x := ev[x].(progress := Idle)]
    ensures WaitsOk(ev')
  {
    assert forall f: EventId :: !Owes(ev[x], f);
    forall f | 0 <= f < |ev| ensures WaitOk(ev', f) { FrameWait(ev, ev', f); }
  }

  lemma FinishSoft(q: QueueId, qu: Queue, ev: seq<Event>, ev': seq<Event>, x: EventId)
    requires x < |ev| == |ev'| && ev[x].progress.Notifying? && ev' == ev[x := ev[x].(progress := Idle)]
    requires ev[x].parent == Some(q) && !ev[x].progress.pushed ==> Announced(qu, x)
    ensures SoftFor(q, qu, ev, ev')
  {
  }

  lemma TypedAt(s: State, ev': seq<Event>, x: EventId)
    requires Typed(s) && EventsOk(s.events, s.clock) && x < |s.events| == |ev'| && ev' == s.events[x := ev'[x]]
    requires EventTyped(ev'[x], |ev'|, |s.queues|) && EventOk(ev'[x], s.clock)
    ensures Typed(s.(events := ev')) && EventsOk(ev', s.clock)
  {
  }

  lemma FinishedKeeps(s: State, ev': seq<Event>, x: EventId)
    requires Inv(s) && x < |s.events| == |ev'| && s.events[x].progress.Notifying?
    requires s.events[x].progress.next == |s.events[x].dependents|
    requires ev' == s.events[x := s.events[x].(progress := Idle)]
    requires forall q :: 0 <= q < |s.queues| && s.events[x].parent == Some(q) && !s.events[x].progress.pushed ==>
               Announced(s.queues[q], x)
    ensures Inv(s.(events := ev'))
  {
    assert EventOk(s.events[x], s.clock) && EventTyped(s.events[x], |s.events|, |s.queues|);
    assert EventOk(ev'[x], s.clock) && EventTyped(ev'[x], |ev'|, |s.queues|);
    hide QueueOk, WaitOk, SoftFor;
    forall q | 0 <= q < |s.queues| ensures SoftFor(q, s.queues[q], s.events, ev') {
      FinishSoft(q, s.queues[q], s.events, ev', x);
    }
    SoftQueues(s, ev');
    FinishWaits(s.events, ev', x);
    hide EventTyped, EventOk;
    TypedAt(s, ev', x);
  }

  lemma EndCompleteKeeps(s: State, x: EventId)
    requires Inv(s) && Enabled(s, EndComplete(x))
    ensures s.events[x].parent.Some? ==> s.events[x].parent.value < |s.queues|
    ensures Inv(ApplyEndComplete(s, x))
  {
    assert EventOk(s.events[x], s.clock) && EventTyped(s.events[x], |s.events|, |s.queues|);
    var ev' := s.events[x := s.events[x].(progress := Idle)];
    if s.events[x].parent.Some? && !s.events[x].progress.pushed {
      var q, p := s.events[x].parent.value, Push(None, Some(x));
      NotifyPush(s, q, p, x);
      FinishedKeeps(AddPush(s, q, p), ev', x);
    } else {
      FinishedKeeps(s, ev', x);
    }
  }
}
