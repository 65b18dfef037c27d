/**
 What every reachable state of the scheduler satisfies, and the frame lemmas: a queue's invariant
 depends only on the events of that queue, and on few of their fields.
 */
module SchedulerInvariant {
  import opened Wrappers
  import opened SchedulerModel

  // ----- Events

  ghost predicate EventsOk(ev: seq<Event>, clock: nat) {
    forall e :: 0 <= e < |ev| ==> EventOk(ev[e], clock)
  }

  ghost predicate EventOk(e: Event, clock: nat) {
    var user := e.kind == User ==> e.stage == Built && e.waitList == [] && e.status in {Submitted, Complete};
    var dummy := e.kind != User && e.Instantaneous() ==> e.status in {Queued, Complete};
    var notifying := e.progress.Notifying? ==> e.Done();
    var queued := && (e.stage.Enqueued? ==> e.stage.ticket < clock)
                  && (e.kind != User && e.status != Queued ==> e.stage.Enqueued?);
    user && dummy && notifying && queued
  }

  // ----- Wait sets

  /** The completion of `x` has not yet notified `e`: `x` is not complete, or its dependents loop
      still has `e` ahead. */
  ghost predicate Owes(x: Event, e: EventId) {
    exists j :: 0 <= j < |x.dependents| && x.dependents[j] == e && NotReached(x, j)
  }

  predicate NotReached(x: Event, j: int) {
    !x.Done() || (x.progress.Notifying? && x.progress.next <= j)
  }

  /** Entries of the wait list that the constructor of `e` has dealt with. */
  function Treated(e: Event): seq<EventId>
    requires e.stage.Building? ==> e.stage.next <= |e.waitList|
  {
    if e.stage.Building? then e.waitList[..e.stage.next] else e.waitList
  }

  ghost predicate WaitsOk(ev: seq<Event>) {
    forall e :: 0 <= e < |ev| ==> WaitOk(ev, e)
  }

  ghost predicate WaitOk(ev: seq<Event>, e: EventId)
    requires e < |ev|
  {
    var bounded := ev[e].stage.Building? ==> ev[e].stage.next <= |ev[e].waitList|;
    var named := forall x :: x in ev[e].waitList ==> Nameable(ev, x) && Earlier(ev[x], ev[e]);
    var kept := bounded && forall x :: x in Treated(ev[e]) ==> x < |ev| && (ev[x].Done() || x in ev[e].waits);
    var owed := forall x :: x in ev[e].waits ==> x < |ev| && Owes(ev[x], e);
    var linked := ev[e].stage.Building? && ev[e].stage.linked ==>
      && ev[e].stage.next < |ev[e].waitList|
      && var x := ev[e].waitList[ev[e].stage.next]; x < |ev| && Owes(ev[x], e);
    named && kept && owed && linked
  }

  /** A queued event was appended after the queued events it waits for. */
  predicate Earlier(x: Event, e: Event) {
    x.stage.Enqueued? && e.stage.Enqueued? ==> x.stage.ticket < e.stage.ticket
  }

  // ----- Queues

  predicate Mine(q: QueueId, ev: seq<Event>, e: EventId) {
    e < |ev| && ev[e].parent == Some(q) && ev[e].stage.Enqueued?
  }

  /** Dispatched, and complete unless it is instantaneous. */
  ghost predicate Settled(qu: Queue, ev: seq<Event>, e: EventId) {
    e in qu.dispatched && e < |ev| && (ev[e].Instantaneous() || ev[e].Done())
  }

  /** Reported and announced completions are those of dispatched, complete events. */
  ghost predicate Histories(qu: Queue, ev: seq<Event>) {
    var reported := forall e :: e in qu.accounted ==> e in qu.dispatched && e < |ev| && ev[e].Done();
    var announced := forall p :: p in qu.pushes && p.completed.Some? ==>
      var e := p.completed.value; e in qu.dispatched && e < |ev| && ev[e].Done();
    reported && announced
  }

  ghost predicate Sorted(q: QueueId, list: seq<EventId>, ev: seq<Event>) {
    && (forall i :: 0 <= i < |list| ==> Mine(q, ev, list[i]))
    && (forall i, j :: 0 <= i < j < |list| ==> ev[list[i]].Ticket() < ev[list[j]].Ticket())
  }

  /** The list is sorted by append time; what was appended and is not listed is settled. */
  ghost predicate Shape(q: QueueId, qu: Queue, ev: seq<Event>) {
    var listed := && Sorted(q, qu.list, ev)
                  && (forall e :: e in qu.dispatched ==> Mine(q, ev, e) && ev[e].waits == [])
                  && (forall e :: e in qu.list ==> (e in qu.dispatched <==> ev[e].status != Queued))
                  && (forall e :: e in qu.list && e in qu.dispatched ==> !ev[e].Instantaneous());
    var gone := forall e: EventId :: Mine(q, ev, e) && e !in qu.list ==> Settled(qu, ev, e);
    listed && gone && Histories(qu, ev)
  }

  ghost predicate Announced(qu: Queue, e: EventId) {
    exists p :: p in qu.pushes && p.completed == Some(e)
  }

  /** Dispatched events that the two counters still count. */
  ghost function Outstanding(qu: Queue, ev: seq<Event>): set<EventId> {
    set e | e in qu.dispatched && (e in qu.list || (e < |ev| && ev[e].Instantaneous()))
  }

  ghost predicate Accounting(qu: Queue, ev: seq<Event>) {
    var counted := qu.onDevice + qu.completed == |Outstanding(qu, ev)|;
    var bounded := qu.onDevice <= |qu.dispatched| - |qu.accounted|;
    qu.inQueue == |qu.list| && counted && bounded
  }

  /** The completion of a dispatched event is reported, announced, or still on its way. */
  ghost predicate Reported(qu: Queue, ev: seq<Event>) {
    forall e :: e in qu.dispatched && e !in qu.accounted && e < |ev| && ev[e].Done() ==>
      (ev[e].progress.Notifying? && !ev[e].progress.pushed) || Announced(qu, e)
  }

  ghost predicate ScanOk(qu: Queue, ev: seq<Event>) {
    var inside := qu.section.Pushing? || qu.section.Cleaning? ==> qu.section.index <= |qu.list|;
    var passed := inside && qu.section.Pushing? ==>
      && (qu.section.first ==> qu.section.index == 0 && qu.section.traversed == 0)
      && (!qu.flushed ==> 1 <= qu.section.index)
      && (forall j :: 0 <= j < qu.section.index ==> qu.list[j] < |ev| && !ev[qu.list[j]].Fence())
      && (forall j :: 1 <= j < qu.section.index ==> ev[qu.list[j]].kind != Barrier);
    inside && passed
  }

  predicate Before(q: QueueId, ev: seq<Event>, e: EventId, f: EventId) {
    Mine(q, ev, e) && Mine(q, ev, f) && ev[e].Ticket() < ev[f].Ticket()
  }

  /** What holds of everything queued before `f` once `f` is dispatched. */
  ghost predicate Cleared(q: QueueId, qu: Queue, ev: seq<Event>, f: EventId) {
    var inOrder := forall e: EventId | Before(q, ev, e, f) ::
      !qu.outOfOrder || ev[f].kind == Barrier ==> Settled(qu, ev, e);
    var barriers := forall e: EventId, b: EventId | Before(q, ev, b, f) && Before(q, ev, e, b) ::
      ev[b].kind == Barrier ==> Settled(qu, ev, e);
    var fences := forall w: EventId | Before(q, ev, w, f) :: ev[w].Fence() ==> w in qu.dispatched;
    inOrder && barriers && fences
  }

  ghost predicate Order(q: QueueId, qu: Queue, ev: seq<Event>) {
    forall f :: f in qu.dispatched ==> Cleared(q, qu, ev, f)
  }

  /** Entry `i` holds the queue back: everything before it is complete, and it is in flight or
      waits for another event. */
  ghost predicate BlockedAt(list: seq<EventId>, ev: seq<Event>, i: nat) {
    && i < |list| && list[i] < |ev|
    && !ev[list[i]].Done() && (ev[list[i]].status != Queued || ev[list[i]].waits != [])
    && forall j :: 0 <= j < i ==> list[j] < |ev| && ev[list[j]].Done()
  }

  ghost predicate Blocked(list: seq<EventId>, ev: seq<Event>) {
    exists i :: BlockedAt(list, ev, i)
  }

  /** Some push of this queue is still to come. */
  ghost predicate Obliged(qu: Queue) {
    qu.pushes != multiset{} || exists e :: e in qu.dispatched && e !in qu.accounted
  }

  ghost predicate Token(qu: Queue, ev: seq<Event>) {
    (qu.section.Pushing? && qu.section.first) || qu.list == [] || Blocked(qu.list, ev) || Obliged(qu)
  }

  ghost predicate SleepOk(qu: Queue) {
    qu.section.Free? && qu.sleepers > 0 ==> qu.list != []
  }

  ghost predicate QueueOk(q: QueueId, qu: Queue, ev: seq<Event>) {
    var lists := Shape(q, qu, ev) && ScanOk(qu, ev) && Order(q, qu, ev);
    var counts := Accounting(qu, ev) && Reported(qu, ev);
    var wakes := Token(qu, ev) && SleepOk(qu);
    lists && counts && wakes
  }

  ghost predicate QueuesOk(s: State) {
    forall q :: 0 <= q < |s.queues| ==> QueueOk(q, s.queues[q], s.events)
  }

  ghost predicate Inv(s: State) {
    Typed(s) && EventsOk(s.events, s.clock) && WaitsOk(s.events) && QueuesOk(s)
  }

  // ----- Frames

  /** Changes of an event that its queue does not notice. */
  predicate Quiet(a: Event, b: Event) {
    && a.kind == b.kind && a.parent == b.parent && a.status == b.status && a.waitList == b.waitList
    && (a.stage.Enqueued? || b.stage.Enqueued? ==> a.stage == b.stage && a.waits == b.waits)
    && (a.Done() ==> a.progress == b.progress)
  }

  /** `ev'` extends `ev`, and the events of queue `q` change quietly. */
  ghost predicate QuietFor(q: QueueId, ev: seq<Event>, ev': seq<Event>) {
    && |ev| <= |ev'|
    && (forall e :: 0 <= e < |ev| ==> ev'[e].parent == ev[e].parent)
    && (forall e :: 0 <= e < |ev| && ev[e].parent == Some(q) ==> Quiet(ev[e], ev'[e]))
    && (forall e :: |ev| <= e < |ev'| ==> !ev'[e].stage.Enqueued?)
  }

  lemma FrameShape(q: QueueId, qu: Queue, ev: seq<Event>, ev': seq<Event>)
    requires QuietFor(q, ev, ev') && Shape(q, qu, ev)
    ensures Shape(q, qu, ev')
    ensures forall e: EventId :: Mine(q, ev', e) <==> Mine(q, ev, e)
  {
    forall e: EventId ensures Mine(q, ev', e) <==> Mine(q, ev, e) {
      if e < |ev| && ev[e].parent == Some(q) { assert Quiet(ev[e], ev'[e]); }
    }
    forall i | 0 <= i < |qu.list| ensures Mine(q, ev', qu.list[i]) {
      assert Mine(q, ev, qu.list[i]);
    }
    forall e: EventId | Mine(q, ev', e) && e !in qu.list ensures Settled(qu, ev', e) {
      assert Settled(qu, ev, e);
    }
  }

  lemma FrameCounting(q: QueueId, qu: Queue, ev: seq<Event>, ev': seq<Event>)
    requires QuietFor(q, ev, ev') && Shape(q, qu, ev) && Accounting(qu, ev) && Reported(qu, ev)
    ensures Accounting(qu, ev') && Reported(qu, ev')
  {
    assert forall e :: e in qu.dispatched ==> Mine(q, ev, e) && Quiet(ev[e], ev'[e]);
    assert Outstanding(qu, ev') == Outstanding(qu, ev);
  }

  lemma FrameScan(q: QueueId, qu: Queue, ev: seq<Event>, ev': seq<Event>)
    requires QuietFor(q, ev, ev') && Shape(q, qu, ev) && ScanOk(qu, ev) && Token(qu, ev)
    ensures ScanOk(qu, ev') && Token(qu, ev')
  {
    assert forall i :: 0 <= i < |qu.list| ==> Mine(q, ev, qu.list[i]) && Quiet(ev[qu.list[i]], ev'[qu.list[i]]);
    if i :| BlockedAt(qu.list, ev, i) {
      assert BlockedAt(qu.list, ev', i);
    }
  }

  lemma FrameOrder(q: QueueId, qu: Queue, ev: seq<Event>, ev': seq<Event>)
    requires QuietFor(q, ev, ev') && Shape(q, qu, ev) && Order(q, qu, ev)
    ensures Order(q, qu, ev')
  {
    FrameShape(q, qu, ev, ev');
    assert forall e: EventId :: Mine(q, ev, e) ==> Quiet(ev[e], ev'[e]);
    assert forall e: EventId, f: EventId :: Before(q, ev', e, f) <==> Before(q, ev, e, f);
    assert forall e: EventId :: Settled(qu, ev, e) ==> Settled(qu, ev', e);
  }

  lemma FrameQueue(q: QueueId, qu: Queue, ev: seq<Event>, ev': seq<Event>)
    requires QuietFor(q, ev, ev') && QueueOk(q, qu, ev)
    ensures QueueOk(q, qu, ev')
  {
    FrameShape(q, qu, ev, ev');
    FrameCounting(q, qu, ev, ev');
    FrameScan(q, qu, ev, ev');
    FrameOrder(q, qu, ev, ev');
  }

  /** A step that only adds pushes, or changes nothing the predicates mention, keeps a queue. */
  lemma FramePush(q: QueueId, qu: Queue, ev: seq<Event>, p: Push)
    requires QueueOk(q, qu, ev)
    requires p.completed.Some? ==> p.completed.value in qu.dispatched && ev[p.completed.value].Done()
    ensures QueueOk(q, qu.(pushes := qu.pushes + multiset{p}), ev)
    ensures Obliged(qu.(pushes := qu.pushes + multiset{p}))
  {
    var qu' := qu.(pushes := qu.pushes + multiset{p});
    assert p in qu'.pushes;
    assert forall e: EventId :: Settled(qu, ev, e) <==> Settled(qu', ev, e);
    assert Shape(q, qu', ev);
    assert Outstanding(qu', ev) == Outstanding(qu, ev);
    forall e: EventId | Announced(qu, e) ensures Announced(qu', e) {
      var r :| r in qu.pushes && r.completed == Some(e);
      assert r in qu'.pushes;
    }
  }
}
