/** Event construction, append, flush and sleep keep the invariant. */
module SchedulerBuild {
  import opened Wrappers
  import opened SchedulerModel
  import opened SchedulerInvariant

  /** Event `e` keeps its wait set, and the other events keep what `WaitOk` relies on. */
  lemma FrameWait(ev: seq<Event>, ev': seq<Event>, e: EventId)
    requires e < |ev| <= |ev'| && WaitOk(ev, e)
    requires ev'[e].waitList == ev[e].waitList && ev'[e].waits == ev[e].waits && ev'[e].stage == ev[e].stage
    requires forall x :: 0 <= x < |ev| && Nameable(ev, x) ==>
      ev'[x].kind == ev[x].kind && ev'[x].stage == ev[x].stage && (ev[x].Done() ==> ev'[x].Done())
    requires forall x :: 0 <= x < |ev| && Owes(ev[x], e) ==> Owes(ev'[x], e)
    ensures WaitOk(ev', e)
  {
    assert Treated(ev'[e]) == Treated(ev[e]);
    assert forall x :: x in Treated(ev[e]) ==> x in ev[e].waitList && Nameable(ev, x);
  }

  lemma OwesMore(x: Event, x': Event, e: EventId)
    requires x.dependents <= x'.dependents && x'.status == x.status && x'.progress == x.progress
    requires Owes(x, e)
    ensures Owes(x', e)
  {
    var j :| 0 <= j < |x.dependents| && x.dependents[j] == e && NotReached(x, j);
    assert x'.dependents[j] == e && NotReached(x', j);
  }

  /** The queues do not notice a step that changes events only quietly. */
  lemma QuietStep(s: State, ev': seq<Event>)
    requires QueuesOk(s)
    requires forall q :: 0 <= q < |s.queues| ==> QuietFor(q, s.events, ev')
    ensures QueuesOk(s.(events := ev'))
  {
    forall q | 0 <= q < |s.queues| ensures QueueOk(q, s.queues[q], ev') {
      FrameQueue(q, s.queues[q], s.events, ev');
    }
  }

  lemma QuietAt(ev: seq<Event>, ev': seq<Event>, e: EventId, q: QueueId)
    requires e < |ev| == |ev'| && ev' == ev[e := ev'[e]] && Quiet(ev[e], ev'[e])
    ensures QuietFor(q, ev, ev')
  {
  }

  lemma ReplaceEvent(s: State, e: EventId, v: Event)
    requires Inv(s) && e < |s.events| && Quiet(s.events[e], v)
    requires EventTyped(v, |s.events|, |s.queues|) && EventOk(v, s.clock) && WaitsOk(s.events[e := v])
    ensures Inv(s.(events := s.events[e := v]))
  {
    var ev' := s.events[e := v];
    forall q | 0 <= q < |s.queues| ensures QuietFor(q, s.events, ev') { QuietAt(s.events, ev', e, q); }
    QuietStep(s, ev');
  }

  lemma OkTyped(q: QueueId, qu: Queue, ev: seq<Event>)
    requires Shape(q, qu, ev) && ScanOk(qu, ev)
    ensures QueueTyped(qu, |ev|)
  {
    assert forall i :: 0 <= i < |qu.list| ==> Mine(q, ev, qu.list[i]);
  }

  lemma ReplaceQueue(s: State, q: QueueId, qu': Queue)
    requires Inv(s) && q < |s.queues| && QueueOk(q, qu', s.events)
    ensures Inv(s.(queues := s.queues[q := qu']))
  {
    OkTyped(q, qu', s.events);
  }

  lemma QuietOther(ev: seq<Event>, ev': seq<Event>, e: EventId, q: QueueId)
    requires e < |ev| == |ev'| && ev' == ev[e := ev'[e]] && ev'[e].parent == ev[e].parent != Some(q)
    ensures QuietFor(q, ev, ev')
  {
  }

  /** A step of queue `q` that changes one of its events. */
  lemma ReplaceBoth(s: State, q: QueueId, qu': Queue, e: EventId, v: Event, clock: nat)
    requires QueuesOk(s) && q < |s.queues| && e < |s.events| && s.events[e].parent == v.parent == Some(q)
    requires QueueOk(q, qu', s.events[e := v])
    ensures QueuesOk(State(s.events[e := v], s.queues[q := qu'], clock))
  {
    var ev' := s.events[e := v];
    forall r | 0 <= r < |s.queues| && r != q ensures QueueOk(r, s.queues[r], ev') {
      QuietOther(s.events, ev', e, r);
      FrameQueue(r, s.queues[r], s.events, ev');
    }
  }

  lemma QueuesTyped(s: State)
    requires QueuesOk(s)
    ensures forall q :: 0 <= q < |s.queues| ==> QueueTyped(s.queues[q], |s.events|)
  {
    forall q | 0 <= q < |s.queues| ensures QueueTyped(s.queues[q], |s.events|) {
      OkTyped(q, s.queues[q], s.events);
    }
  }

  lemma CreateKeeps(s: State, n: Event)
    requires Inv(s) && EventTyped(n, |s.events| + 1, |s.queues|) && EventOk(n, s.clock) && !n.stage.Enqueued?
    requires WaitOk(s.events + [n], |s.events|)
    ensures Inv(s.(events := s.events + [n]))
  {
    var ev, ev' := s.events, s.events + [n];
    QuietStep(s, ev');
    CreateWaits(ev, n);
    forall e | 0 <= e < |ev| ensures EventTyped(ev[e], |ev'|, |s.queues|) {
      assert EventTyped(ev[e], |ev|, |s.queues|);
    }
  }

  lemma CreateWaits(ev: seq<Event>, n: Event)
    requires WaitsOk(ev) && WaitOk(ev + [n], |ev|)
    ensures WaitsOk(ev + [n])
  {
    forall e | 0 <= e < |ev + [n]| ensures WaitOk(ev + [n], e) {
      if e < |ev| { FrameWait(ev, ev + [n], e); }
    }
  }

  lemma CreateUserKeeps(s: State)
    requires Inv(s)
    ensures Inv(Apply(s, CreateUser))
  {
    CreateKeeps(s, NewEvent(User, None, []));
  }

  lemma BeginEventKeeps(s: State, q: QueueId, kind: Kind, waitList: seq<EventId>)
    requires Inv(s) && Enabled(s, BeginEvent(q, kind, waitList))
    ensures Inv(Apply(s, BeginEvent(q, kind, waitList)))
  {
    var n := NewEvent(kind, Some(q), waitList);
    assert forall i :: 0 <= i < |waitList| ==> waitList[i] in waitList;
    forall x | x in waitList ensures Nameable(s.events + [n], x) { assert Nameable(s.events, x); }
    CreateKeeps(s, n);
  }

  /** A change of event `e` alone that leaves dependents, status and progress as they are. */
  lemma LocalWaits(ev: seq<Event>, e: EventId, v: Event)
    requires e < |ev| && WaitsOk(ev)
    requires v.dependents == ev[e].dependents && v.status == ev[e].status && v.progress == ev[e].progress
    requires v.kind == ev[e].kind && (ev[e].stage.Enqueued? || ev[e].kind == User ==> v.stage == ev[e].stage)
    requires WaitOk(ev[e := v], e)
    ensures WaitsOk(ev[e := v])
  {
    var ev' := ev[e := v];
    assert forall x, f: EventId :: 0 <= x < |ev| && Owes(ev[x], f) ==> Owes(ev'[x], f) by {
      forall x, f: EventId | 0 <= x < |ev| && Owes(ev[x], f) ensures Owes(ev'[x], f) { OwesMore(ev[x], ev'[x], f); }
    }
    forall f | 0 <= f < |ev| ensures WaitOk(ev', f) {
      if f != e { FrameWait(ev, ev', f); }
    }
  }

  /** Entry `k` of the wait list has been dealt with, by completion or by membership in the wait set. */
  lemma AdvanceWait(ev: seq<Event>, e: EventId, v: Event)
    requires e < |ev| && WaitOk(ev, e) && ev[e].stage.Building? && ev[e].stage.next < |ev[e].waitList|
    requires v.stage == Building(ev[e].stage.next + 1, false) && v.waitList == ev[e].waitList && v.kind == ev[e].kind
    requires v.status == ev[e].status && v.dependents == ev[e].dependents && v.progress == ev[e].progress
    requires var x := ev[e].waitList[ev[e].stage.next];
      x < |ev| && x != e
      && if ev[x].Done() then v.waits == ev[e].waits || (v.waits == ev[e].waits + [x] && Owes(ev[x], e))
                  else v.waits == ev[e].waits + [x] && Owes(ev[x], e)
    ensures WaitOk(ev[e := v], e)
  {
    var ev' := ev[e := v];
    var k := ev[e].stage.next;
    var x := ev[e].waitList[k];
    assert v.waitList[..k + 1] == ev[e].waitList[..k] + [x];
    assert forall y :: y in Treated(v) ==> y in Treated(ev[e]) || y == x;
    forall y | y in v.waits ensures y < |ev'| && Owes(ev'[y], e) {
      if y in ev[e].waits { OwesMore(ev[y], ev'[y], e); }
    }
    forall y | y in Treated(v) ensures y < |ev'| && (ev'[y].Done() || y in v.waits) {
      if y in Treated(ev[e]) { assert ev[y].Done() || y in ev[e].waits; }
    }
    forall y | y in v.waitList ensures Nameable(ev', y) {
      assert Nameable(ev, y);
    }
  }

  lemma RecordKeeps(s: State, e: EventId)
    requires Inv(s) && Enabled(s, RecordWait(e))
    ensures Inv(ApplyRecord(s, e))
  {
    var ev := s.events;
    var x := ev[e].waitList[ev[e].stage.next];
    var v := ev[e].(waits := ev[e].waits + [x], stage := Building(ev[e].stage.next + 1, false));
    assert WaitOk(ev, e) && x in ev[e].waitList && Nameable(ev, x);
    assert EventOk(ev[e], s.clock);
    AdvanceWait(ev, e, v);
    LocalWaits(ev, e, v);
    assert EventTyped(ev[e], |ev|, |s.queues|);
    ReplaceEvent(s, e, v);
  }

  lemma EndKeeps(s: State, e: EventId)
    requires Inv(s) && Enabled(s, EndEvent(e))
    ensures Inv(s.(events := s.events[e := s.events[e].(stage := Built)]))
  {
    var ev := s.events;
    var v := ev[e].(stage := Built);
    assert WaitOk(ev, e);
    assert ev[e].waitList[..|ev[e].waitList|] == ev[e].waitList;
    assert Treated(v) == Treated(ev[e]);
    forall x | x in v.waits ensures Owes(ev[e := v][x], e) { OwesMore(ev[x], ev[e := v][x], e); }
    assert EventOk(ev[e], s.clock);
    forall x | x in v.waitList ensures Nameable(ev[e := v], x) { assert Nameable(ev, x); }
    assert WaitOk(ev[e := v], e);
    LocalWaits(ev, e, v);
    assert EventTyped(ev[e], |ev|, |s.queues|);
    ReplaceEvent(s, e, v);
  }

  /** `addDependentEvent` on an event that is already complete: the entry is skipped. */
  lemma SkipKeeps(s: State, e: EventId)
    requires Inv(s) && Enabled(s, LinkWait(e))
    requires s.events[s.events[e].waitList[s.events[e].stage.next]].Done()
    ensures Inv(ApplyLink(s, e))
  {
    var ev := s.events;
    var k := ev[e].stage.next;
    var x := ev[e].waitList[k];
    var v := ev[e].(stage := Building(k + 1, false));
    assert WaitOk(ev, e) && x in ev[e].waitList && Nameable(ev, x);
    assert EventOk(ev[e], s.clock);
    AdvanceWait(ev, e, v);
    LocalWaits(ev, e, v);
    assert EventTyped(ev[e], |ev|, |s.queues|);
    ReplaceEvent(s, e, v);
  }

  /** `e` is appended to the dependents of `x`. */
  lemma AddDependentKeeps(s: State, x: EventId, e: EventId)
    requires Inv(s) && x < |s.events| && e < |s.events| && !s.events[x].Done()
    ensures Inv(s.(events := s.events[x := s.events[x].(dependents := s.events[x].dependents + [e])]))
    ensures Owes(s.events[x].(dependents := s.events[x].dependents + [e]), e)
  {
    var ev := s.events;
    var v := ev[x].(dependents := ev[x].dependents + [e]);
    assert v.dependents[|ev[x].dependents|] == e && NotReached(v, |ev[x].dependents|);
    var ev' := ev[x := v];
    assert forall y, f: EventId :: 0 <= y < |ev| && Owes(ev[y], f) ==> Owes(ev'[y], f) by {
      forall y, f: EventId | 0 <= y < |ev| && Owes(ev[y], f) ensures Owes(ev'[y], f) { OwesMore(ev[y], ev'[y], f); }
    }
    forall f | 0 <= f < |ev| ensures WaitOk(ev', f) { FrameWait(ev, ev', f); }
    assert EventTyped(ev[x], |ev|, |s.queues|) && EventOk(ev[x], s.clock);
    assert EventTyped(v, |ev|, |s.queues|);
    ReplaceEvent(s, x, v);
  }

  lemma MarkLinkedKeeps(s: State, e: EventId)
    requires Inv(s) && Enabled(s, LinkWait(e))
    requires Owes(s.events[s.events[e].waitList[s.events[e].stage.next]], e)
    ensures Inv(s.(events := s.events[e := s.events[e].(stage := Building(s.events[e].stage.next, true))]))
  {
    var ev := s.events;
    var k := ev[e].stage.next;
    var x := ev[e].waitList[k];
    var v := ev[e].(stage := Building(k, true));
    var ev' := ev[e := v];
    assert WaitOk(ev, e) && x in ev[e].waitList && Nameable(ev, x);
    assert EventOk(ev[e], s.clock);
    assert Treated(v) == Treated(ev[e]);
    OwesMore(ev[x], ev'[x], e);
    forall y | y in v.waits ensures Owes(ev'[y], e) { OwesMore(ev[y], ev'[y], e); }
    forall y | y in v.waitList ensures Nameable(ev', y) { assert Nameable(ev, y); }
    assert WaitOk(ev', e);
    LocalWaits(ev, e, v);
    assert EventTyped(ev[e], |ev|, |s.queues|);
    ReplaceEvent(s, e, v);
  }

  lemma LinkKeeps(s: State, e: EventId)
    requires Inv(s) && Enabled(s, LinkWait(e))
    ensures Inv(ApplyLink(s, e))
  {
    var x := s.events[e].waitList[s.events[e].stage.next];
    assert WaitOk(s.events, e) && x in s.events[e].waitList && Nameable(s.events, x);
    assert EventOk(s.events[e], s.clock);
    if s.events[x].Done() {
      SkipKeeps(s, e);
    } else {
      AddDependentKeeps(s, x, e);
      MarkLinkedKeeps(s.(events := s.events[x := s.events[x].(dependents := s.events[x].dependents + [e])]), e);
    }
  }

  // ----- Append

  lemma AppendWaits(ev: seq<Event>, e: EventId, clock: nat)
    requires EventsOk(ev, clock) && WaitsOk(ev) && e < |ev| && ev[e].stage.Built? && ev[e].kind != User
    ensures WaitsOk(ev[e := ev[e].(stage := Enqueued(clock))])
  {
    var v := ev[e].(stage := Enqueued(clock));
    var ev' := ev[e := v];
    forall f | 0 <= f < |ev| ensures WaitOk(ev', f) {
      assert WaitOk(ev, f);
      assert forall x :: 0 <= x < |ev| && Owes(ev[x], f) ==> Owes(ev'[x], f) by {
        forall x | 0 <= x < |ev| && Owes(ev[x], f) ensures Owes(ev'[x], f) { OwesMore(ev[x], ev'[x], f); }
      }
      if f != e {
        FrameWait(ev, ev', f);
      } else {
        forall x | x in v.waitList ensures Nameable(ev', x) && Earlier(ev'[x], v) {
          assert Nameable(ev, x) && EventOk(ev[x], clock);
        }
        assert Treated(v) == Treated(ev[e]);
      }
    }
  }

  lemma AppendShape(q: QueueId, qu: Queue, ev: seq<Event>, e: EventId, clock: nat)
    requires Shape(q, qu, ev) && EventsOk(ev, clock)
    requires e < |ev| && ev[e].stage.Built? && ev[e].parent == Some(q) && ev[e].status == Queued
    ensures Shape(q, Longer(qu, e), ev[e := ev[e].(stage := Enqueued(clock))])
  {
    var ev', qu' := ev[e := ev[e].(stage := Enqueued(clock))], Longer(qu, e);
    assert forall i :: 0 <= i < |qu.list| ==> Mine(q, ev, qu.list[i]) && EventOk(ev[qu.list[i]], clock);
    assert forall f :: f in qu.dispatched ==> Mine(q, ev, f) && f != e;
    forall f: EventId | Mine(q, ev', f) && f !in qu'.list ensures Settled(qu', ev', f) {
      assert e == qu'.list[|qu.list|];
      assert forall i :: 0 <= i < |qu.list| ==> qu'.list[i] == qu.list[i];
      assert Mine(q, ev, f) && f !in qu.list;
      assert Settled(qu, ev, f);
    }
  }

  lemma AppendOrder(q: QueueId, qu: Queue, ev: seq<Event>, e: EventId, clock: nat)
    requires Shape(q, qu, ev) && Order(q, qu, ev) && EventsOk(ev, clock)
    requires e < |ev| && ev[e].stage.Built?
    ensures Order(q, Longer(qu, e), ev[e := ev[e].(stage := Enqueued(clock))])
  {
    var ev', qu' := ev[e := ev[e].(stage := Enqueued(clock))], Longer(qu, e);
    assert forall f :: f in qu.dispatched ==> Mine(q, ev, f) && EventOk(ev[f], clock);
    assert forall d: EventId, f: EventId :: f < |ev| && f != e && Before(q, ev', d, f) ==> Before(q, ev, d, f) by {
      forall d: EventId, f: EventId | f < |ev| && f != e && Before(q, ev', d, f) ensures Before(q, ev, d, f) {
        assert EventOk(ev[f], clock);
      }
    }
    assert forall d: EventId :: Settled(qu, ev, d) ==> Settled(qu', ev', d);
    forall d: EventId, b: EventId, f: EventId | f in qu'.dispatched && Before(q, ev', b, f) && Before(q, ev', d, b)
      ensures Before(q, ev, b, f) && Before(q, ev, d, b)
    {
      assert Before(q, ev, b, f);
    }
  }

  lemma AppendRest(q: QueueId, qu: Queue, ev: seq<Event>, e: EventId, clock: nat)
    requires Shape(q, qu, ev) && Accounting(qu, ev) && Reported(qu, ev)
    requires e < |ev| && ev[e].stage.Built?
    ensures var ev', qu' := ev[e := ev[e].(stage := Enqueued(clock))], Longer(qu, e);
      Accounting(qu', ev') && Reported(qu', ev') && Obliged(qu')
  {
    var ev', qu' := ev[e := ev[e].(stage := Enqueued(clock))], Longer(qu, e);
    assert Push(None, None) in qu'.pushes;
    assert forall f :: f in qu.dispatched ==> Mine(q, ev, f) && f != e;
    assert Outstanding(qu', ev') == Outstanding(qu, ev);
    forall f: EventId | Announced(qu, f) ensures Announced(qu', f) {
      var r :| r in qu.pushes && r.completed == Some(f);
      assert r in qu'.pushes;
    }
  }

  lemma AppendQueue(q: QueueId, qu: Queue, ev: seq<Event>, e: EventId, clock: nat)
    requires QueueOk(q, qu, ev) && EventsOk(ev, clock) && qu.section.Free?
    requires e < |ev| && ev[e].stage.Built? && ev[e].parent == Some(q) && ev[e].status == Queued
    ensures QueueOk(q, Longer(qu, e), ev[e := ev[e].(stage := Enqueued(clock))])
  {
    AppendShape(q, qu, ev, e, clock);
    AppendOrder(q, qu, ev, e, clock);
    AppendRest(q, qu, ev, e, clock);
  }

  lemma AppendEvents(s: State, e: EventId, v: Event)
    requires Typed(s) && EventsOk(s.events, s.clock) && e < |s.events| && s.events[e].parent.Some?
    requires v == s.events[e].(stage := Enqueued(s.clock))
    ensures EventsOk(s.events[e := v], s.clock + 1)
    ensures EventTyped(v, |s.events|, |s.queues|)
  {
    assert EventTyped(s.events[e], |s.events|, |s.queues|);
    var ev' := s.events[e := v];
    forall f | 0 <= f < |ev'| ensures EventOk(ev'[f], s.clock + 1) {
      assert EventOk(s.events[f], s.clock);
    }
  }

  lemma AppendKeeps(s: State, e: EventId, q: QueueId)
    requires Inv(s) && e < |s.events| && s.events[e].stage.Built? && s.events[e].parent == Some(q) && IsFree(s, q)
    ensures Inv(ApplyAppend(s, e))
  {
    var s', v := ApplyAppend(s, e), s.events[e].(stage := Enqueued(s.clock));
    assert EventOk(s.events[e], s.clock) && EventTyped(s.events[e], |s.events|, |s.queues|);
    AppendWaits(s.events, e, s.clock);
    AppendEvents(s, e, v);
    AppendQueue(q, s.queues[q], s.events, e, s.clock);
    ReplaceBoth(s, q, Longer(s.queues[q], e), e, v, s.clock + 1);
    assert s' == State(s.events[e := v], s.queues[q := Longer(s.queues[q], e)], s.clock + 1);
    QueuesTyped(s');
  }

  // ----- Flush, sleep

  lemma AddPushKeeps(s: State, q: QueueId, p: Push)
    requires Inv(s) && q < |s.queues|
    requires p.completed.Some? ==> p.completed.value in s.queues[q].dispatched && p.completed.value < |s.events|
                                   && s.events[p.completed.value].Done()
    ensures Inv(AddPush(s, q, p))
  {
    FramePush(q, s.queues[q], s.events, p);
    ReplaceQueue(s, q, s.queues[q].(pushes := s.queues[q].pushes + multiset{p}));
  }

  /** Queues that agree on the list, the pushes, the histories and the counters. */
  lemma SamePlace(q: QueueId, qu: Queue, qu': Queue, ev: seq<Event>)
    requires Shape(q, qu, ev) && Accounting(qu, ev) && Reported(qu, ev) && Order(q, qu, ev)
    requires qu' == qu.(sleepers := qu'.sleepers, woken := qu'.woken, section := qu'.section, flushed := qu'.flushed)
    ensures Shape(q, qu', ev) && Accounting(qu', ev) && Reported(qu', ev) && Order(q, qu', ev)
  {
    assert forall e: EventId :: Settled(qu, ev, e) <==> Settled(qu', ev, e);
    assert Outstanding(qu', ev) == Outstanding(qu, ev);
    assert forall e: EventId :: Announced(qu, e) <==> Announced(qu', e);
  }

  lemma SleepQueue(q: QueueId, qu: Queue, ev: seq<Event>)
    requires QueueOk(q, qu, ev) && qu.section.Free? && qu.inQueue != 0
    ensures QueueOk(q, qu.(sleepers := qu.sleepers + 1), ev)
  {
    SamePlace(q, qu, qu.(sleepers := qu.sleepers + 1), ev);
  }

  lemma SleepKeeps(s: State, q: QueueId)
    requires Inv(s) && IsFree(s, q) && s.queues[q].inQueue != 0
    ensures Inv(ApplySleep(s, q))
  {
    assert QueueOk(q, s.queues[q], s.events);
    SleepQueue(q, s.queues[q], s.events);
    ReplaceQueue(s, q, s.queues[q].(sleepers := s.queues[q].sleepers + 1));
  }

  lemma RecheckQueue(q: QueueId, qu: Queue, ev: seq<Event>)
    requires QueueOk(q, qu, ev) && qu.section.Free? && qu.woken > 0
    ensures QueueOk(q, Rechecked(qu), ev)
  {
    SamePlace(q, qu, Rechecked(qu), ev);
  }
}
