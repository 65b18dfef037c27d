/**
 When a barrier is overtaken.  A barrier with a wait list does not hold back an out-of-order queue
 while it waits at the head of the list; in all other cases nothing passes it.
 */
module SchedulerBarriers {
  import opened Wrappers
  import opened SchedulerModel
  import opened SchedulerInvariant
  import opened SchedulerSafety
  import opened SchedulerTheorems
  import opened SchedulerRuns

  /** Wherever a barrier was overtaken, the queue is out of order and the barrier has a wait list. */
  lemma OvertakenOnlyIf(s: State, q: QueueId, b: EventId, f: EventId)
    requires Reachable(s) && q < |s.queues| && Before(q, s.events, b, f) && s.events[b].kind == Barrier
    requires f in s.queues[q].dispatched && b !in s.queues[q].dispatched
    ensures s.queues[q].outOfOrder && s.events[b].waitList != [] && s.events[f].kind != Barrier
  {
    hide Reachable;
    if !s.queues[q].outOfOrder { InOrderSafety(s, q, b, f); }
    if s.events[b].waitList == [] { FenceSafety(s, q, b, f); }
    if s.events[f].kind == Barrier { BarriersInOrder(s, q, b, f); }
  }

  /** A barrier is dispatched after everything queued before it. */
  lemma BarriersInOrder(s: State, q: QueueId, e: EventId, b: EventId)
    requires Reachable(s) && q < |s.queues| && Before(q, s.events, e, b) && s.events[b].kind == Barrier
    requires b in s.queues[q].dispatched
    ensures e in s.queues[q].dispatched
  {
    ReachableInv(s);
    assert QueueOk(q, s.queues[q], s.events);
    assert Cleared(q, s.queues[q], s.events, b);
  }

  // ----- A barrier that waits for nothing is not passed

  /** `b` is at the head of the list, and no scan has passed it. */
  ghost predicate AtHead(qu: Queue, b: EventId, f: EventId) {
    && qu.list != [] && qu.list[0] == b && b !in qu.dispatched && f !in qu.dispatched
    && (qu.section.Pushing? ==> qu.section.index == 0 && qu.section.first && qu.section.traversed == 0)
  }

  /** The event waits for nothing, and is not dispatched. */
  predicate Idles(e: Event) {
    e.kind == Barrier && e.stage.Enqueued? && e.status == Queued && e.waits == []
  }

  ghost predicate Pinned(s: State, q: QueueId, b: EventId, f: EventId) {
    q < |s.queues| && b < |s.events| && Idles(s.events[b]) && AtHead(s.queues[q], b, f)
  }

  /** A scan that finds it dispatches it. */
  lemma PinnedScan(qu: Queue, event: Event, b: EventId, f: EventId)
    requires Idles(event) && AtHead(qu, b, f) && qu.section.Pushing?
    ensures b in ScanIteration(qu, event).0.dispatched
  {
  }

  lemma CleanAtHead(qu: Queue, ev: seq<Event>, b: EventId, f: EventId)
    requires AtHead(qu, b, f) && QueueTyped(qu, |ev|) && b < |ev| && Idles(ev[b]) && qu.section.Cleaning?
    ensures AtHead(CleanIteration(qu, ev), b, f)
  {
  }

  lemma EnterAtHead(qu: Queue, p: Push, enough: bool, b: EventId, f: EventId)
    requires AtHead(qu, b, f) && qu.section.Free?
    ensures AtHead(EnterPush(qu, p, enough), b, f)
  {
  }

  /** Steps other than a scan of this queue leave the head of its list. */
  lemma StillAtHead(s: State, step: Step, q: QueueId, b: EventId, f: EventId)
    requires Typed(s) && Enabled(s, step) && step != Scan(q) && Pinned(s, q, b, f)
    ensures q < |Apply(s, step).queues| && AtHead(Apply(s, step).queues[q], b, f)
  {
    if step.Notify? {
      assert EventTyped(s.events[Dependent(s, step.event)], |s.events|, |s.queues|);
      hide Typed, NotifyEvents, Wakes, WakesOwn;
    } else if step.EndComplete? || step.Append? {
      assert EventTyped(s.events[step.event], |s.events|, |s.queues|);
      hide Typed;
    } else if step == Clean(q) {
      assert QueueTyped(s.queues[q], |s.events|);
      CleanAtHead(s.queues[q], s.events, b, f);
      hide Typed, CleanIteration, AtHead;
    } else if step.BeginPush? && step.queue == q {
      EnterAtHead(s.queues[q], step.push, step.enough, b, f);
      hide Typed, EnterPush, AtHead;
    } else {
      hide Typed, EnterPush, CleanIteration, ScanIteration;
    }
  }

  /** A step other than a scan of its queue leaves a queued event without waits as it is. */
  lemma StillQueued(s: State, step: Step, b: EventId)
    requires Typed(s) && Enabled(s, step) && !step.Scan? && b < |s.events|
    requires s.events[b].kind != User && s.events[b].stage.Enqueued? && s.events[b].status == Queued
    requires s.events[b].waits == [] && !InDispatched(s, b)
    ensures var e := Apply(s, step).events[b];
      e.status == Queued && e.waits == []
  {
    if step.Notify? {
      assert EventTyped(s.events[Dependent(s, step.event)], |s.events|, |s.queues|);
      hide Typed;
    } else if step.EndComplete? || step.Append? {
      assert EventTyped(s.events[step.event], |s.events|, |s.queues|);
      hide Typed;
    } else {
      hide EventTyped;
    }
  }

  /** A scan of another queue submits only events of that queue. */
  lemma OtherScanStill(s: State, k: QueueId, b: EventId)
    requires Inv(s) && Enabled(s, Scan(k)) && b < |s.events| && s.events[b].kind != Command
    ensures ApplyScan(s, k).events[b] == s.events[b]
  {
    var qu := s.queues[k];
    assert QueueTyped(qu, |s.events|);
    hide Inv, Typed;
    if qu.section.index < |qu.list| && ScanIteration(qu, s.events[qu.list[qu.section.index]]).1 {
      SubmitsCommand(qu, s.events[qu.list[qu.section.index]]);
    }
  }

  lemma PinnedNext(s: State, t: State, q: QueueId, b: EventId, f: EventId)
    requires Inv(s) && Next(s, t) && Pinned(s, q, b, f) && Mine(q, s.events, b)
    ensures q < |t.queues| && (b in t.queues[q].dispatched || (Pinned(t, q, b, f) && Mine(q, t.events, b)))
  {
    var step :| Enabled(s, step) && t == Apply(s, step);
    assert Typed(s);
    hide Inv;
    NextExtends(s, t);
    assert Persists(s.events[b], t.events[b]);
    hide Next, Extends;
    if step == Scan(q) {
      PinnedScan(s.queues[q], s.events[b], b, f);
      hide Typed, ScanIteration;
    } else if step.Scan? {
      StillAtHead(s, step, q, b, f);
      OtherScanStill(s, step.queue, b);
      hide Apply, Typed, ApplyScan, AtHead;
    } else {
      StillAtHead(s, step, q, b, f);
      StillQueued(s, step, b);
      hide Apply, Typed, AtHead;
    }
  }

  lemma {:induction false} PinnedRun(run: seq<State>, q: QueueId, b: EventId, f: EventId)
    requires IsRun(run) && Inv(run[0]) && q < |run[0].queues|
    requires b in run[0].queues[q].dispatched || (Pinned(run[0], q, b, f) && Mine(q, run[0].events, b))
    ensures var t := run[|run| - 1];
      q < |t.queues| && (b in t.queues[q].dispatched || f !in t.queues[q].dispatched)
    decreases |run|
  {
    hide Next, Inv, Mine;
    if |run| > 1 {
      assert Next(run[0], run[1]);
      NextKeepsInv(run[0], run[1]);
      if b in run[0].queues[q].dispatched {
        NextExtends(run[0], run[1]);
      } else {
        hide Pinned;
        PinnedNext(run[0], run[1], q, b, f);
      }
      PinnedRun(run[1..], q, b, f);
    }
  }

  // ----- The exact condition

  /** A queued barrier `b` heads the list of a queue whose mutex is free; the next entry `f` is queued
      and waits for nothing. */
  ghost predicate HeadBarrier(s: State, q: QueueId, b: EventId, f: EventId) {
    && IsFree(s, q) && |s.queues[q].list| > 1 && s.queues[q].list[0] == b && s.queues[q].list[1] == f
    && b < |s.events| && s.events[b].kind == Barrier
    && f < |s.events| && s.events[f].status == Queued && s.events[f].waits == []
  }

  /** Some run dispatches `f` while `b` is still listed. */
  ghost predicate CanOvertake(s: State, q: QueueId, b: EventId, f: EventId) {
    exists t :: Reaches(s, t) && q < |t.queues| && f in t.queues[q].dispatched && b !in t.queues[q].dispatched
  }

  lemma HeadFacts(s: State, q: QueueId, b: EventId, f: EventId)
    requires Inv(s) && HeadBarrier(s, q, b, f)
    ensures Before(q, s.events, b, f) && s.events[b].status == Queued
    ensures b !in s.queues[q].dispatched && f !in s.queues[q].dispatched
  {
    var qu := s.queues[q];
    assert QueueOk(q, qu, s.events);
    assert b in qu.list && f in qu.list;
    assert Mine(q, s.events, qu.list[0]) && Mine(q, s.events, qu.list[1]);
  }

  /** A push scans up to the barrier. */
  lemma EnterScan(s: State, q: QueueId) returns (t: State)
    requires Inv(s) && IsFree(s, q)
    ensures Inv(t) && Reaches(s, t) && t.events == s.events && |t.queues| == |s.queues|
    ensures t.queues[q] ==
            s.queues[q].(section := Pushing(0, true, 0, None), flushed := true, pushes := t.queues[q].pushes)
  {
    hide Inv, Typed, Reaches;
    var p := Push(None, None);
    var s1 := StepTo(s, Flush(q));
    assert p in s1.queues[q].pushes;
    t := StepTo(s1, BeginPush(q, p, false));
    ReachesTrans(s, s1, t);
  }

  /** The first iteration passes the waiting barrier. */
  lemma PassBarrier(s: State, q: QueueId, b: EventId) returns (t: State)
    requires Inv(s) && q < |s.queues| && s.queues[q].section == Pushing(0, true, 0, None) && |s.queues[q].list| > 1
    requires b == s.queues[q].list[0] < |s.events|
    requires var e := s.events[b]; e.kind == Barrier && e.status == Queued && e.waits != []
    ensures Inv(t) && Reaches(s, t) && t.events == s.events
    ensures t.queues == s.queues[q := s.queues[q].(section := Pushing(1, false, 1, None), flushed := false)]
  {
    var qu := s.queues[q];
    assert ScanIteration(qu, s.events[b]) == (qu.(section := Pushing(1, false, 1, None), flushed := false), false);
    hide Inv, Typed, Reaches, ScanIteration, ApplyScan;
    t := StepTo(s, Scan(q));
    ScanStep(s, q);
  }

  /** The second iteration dispatches the entry behind it. */
  lemma DispatchNext(s: State, q: QueueId, f: EventId) returns (t: State)
    requires Inv(s) && q < |s.queues| && s.queues[q].section == Pushing(1, false, 1, None) && s.queues[q].outOfOrder
    requires |s.queues[q].list| > 1 && f == s.queues[q].list[1] < |s.events|
    requires var e := s.events[f]; e.kind != Barrier && e.status == Queued && e.waits == []
    ensures Inv(t) && Reaches(s, t) && |t.events| == |s.events| && |t.queues| == |s.queues|
    ensures forall x :: 0 <= x < |s.events| && x != f ==> t.events[x] == s.events[x]
    ensures t.queues[q].dispatched == s.queues[q].dispatched + {f}
  {
    assert ScanIteration(s.queues[q], s.events[f]).0.dispatched == s.queues[q].dispatched + {f};
    hide Inv, Typed, Reaches, ScanIteration, ApplyScan;
    t := StepTo(s, Scan(q));
    ScanStep(s, q);
  }

  /** A push and two iterations; nothing but `f` changes. */
  lemma Overtaking(s: State, q: QueueId, b: EventId, f: EventId) returns (t: State)
    requires Inv(s) && HeadBarrier(s, q, b, f) && s.queues[q].outOfOrder && s.events[b].waits != []
    requires s.events[f].kind != Barrier
    ensures Reaches(s, t) && q < |t.queues| && f in t.queues[q].dispatched && b !in t.queues[q].dispatched
    ensures |t.events| == |s.events| && forall x :: 0 <= x < |s.events| && x != f ==> t.events[x] == s.events[x]
  {
    hide Inv, Reaches, Before;
    HeadFacts(s, q, b, f);
    var s1 := EnterScan(s, q);
    var s2 := PassBarrier(s1, q, b);
    t := DispatchNext(s2, q, f);
    ReachesTrans(s, s1, s2);
    ReachesTrans(s, s2, t);
    assert b != f;
  }

  /** A barrier at the head of the list can be overtaken by the entry behind it if and only if the queue
      is out of order, the barrier still waits for some event, and the entry is no barrier. */
  lemma OvertakenIff(s: State, q: QueueId, b: EventId, f: EventId)
    requires Reachable(s) && HeadBarrier(s, q, b, f)
    ensures CanOvertake(s, q, b, f) <==>
            s.queues[q].outOfOrder && s.events[b].waits != [] && s.events[f].kind != Barrier
  {
    ReachableInv(s);
    HeadFacts(s, q, b, f);
    hide Inv, Reachable;
    if s.queues[q].outOfOrder && s.events[b].waits != [] && s.events[f].kind != Barrier {
      var t := Overtaking(s, q, b, f);
    }
    forall t | Reaches(s, t) && q < |t.queues| && f in t.queues[q].dispatched && b !in t.queues[q].dispatched
      ensures s.queues[q].outOfOrder && s.events[b].waits != [] && s.events[f].kind != Barrier
    {
      OvertakenNeeds(s, t, q, b, f);
    }
  }

  lemma OvertakenNeeds(s: State, t: State, q: QueueId, b: EventId, f: EventId)
    requires Reachable(s) && HeadBarrier(s, q, b, f) && Reaches(s, t)
    requires q < |t.queues| && f in t.queues[q].dispatched && b !in t.queues[q].dispatched
    ensures s.queues[q].outOfOrder && s.events[b].waits != [] && s.events[f].kind != Barrier
  {
    ReachableInv(s);
    HeadFacts(s, q, b, f);
    RunReachable(s, t);
    ReachesExtends(s, t);
    assert Grows(s.queues[q], t.queues[q]);
    hide Reachable, Inv;
    assert Persists(s.events[b], t.events[b]) && Persists(s.events[f], t.events[f]);
    OvertakenOnlyIf(t, q, b, f);
    if s.events[b].waits == [] {
      var run :| IsRun(run) && run[0] == s && run[|run| - 1] == t;
      PinnedRun(run, q, b, f);
    }
  }

  // ----- A run in which a barrier is overtaken

  lemma Do(s: State, step: Step)
    requires Reachable(s) && Enabled(s, step)
    ensures Typed(s) && Reachable(Apply(s, step))
  {
    ReachableInv(s);
    StepReachable(s, Apply(s, step));
  }

  const USER := Event(User, None, Submitted, [], [], [], Built, Idle)
  const BARRIER := Event(Barrier, Some(0), Queued, [0], [], [], Building(0, false), Idle)
  const COMMAND := Event(Command, Some(0), Queued, [], [], [], Building(0, false), Idle)
  const PUSH := Push(None, None)

  /** An out-of-order queue that only appends have touched. */
  function FreshQueue(list: seq<EventId>, pushes: multiset<Push>): Queue {
    Queue(true, list, |list|, 0, 0, list == [], Free, pushes, 0, 0, {}, {})
  }

  /** A user event and a barrier that is to wait for it. */
  lemma BarrierBuilding() returns (s: State)
    ensures Reachable(s) && s == State([USER, BARRIER], [FreshQueue([], multiset{})], 0)
  {
    s := State([], [FreshQueue([], multiset{})], 0);
    assert IsRun([s]) && Init(s) && Reaches(s, s) by { assert [s][0] == s; }
    assert Reachable(s);
    hide Reachable, Typed, Init, Reaches, IsRun;
    Do(s, CreateUser);
    s := Apply(s, CreateUser);
    assert s.events == [USER];
    Do(s, BeginEvent(0, Barrier, [0]));
    s := Apply(s, BeginEvent(0, Barrier, [0]));
    assert s.events == [USER, BARRIER];
  }

  /** The barrier waits for the user event. */
  lemma BarrierLinked() returns (s: State)
    ensures Reachable(s)
    ensures s == State([USER.(dependents := [1]), BARRIER.(waits := [0], stage := Building(1, false))],
                       [FreshQueue([], multiset{})], 0)
  {
    hide Reachable, Typed;
    s := BarrierBuilding();
    assert USER.dependents + [1] == [1] && BARRIER.waits + [0] == [0];
    Do(s, LinkWait(1));
    s := Apply(s, LinkWait(1));
    assert s.events == [USER.(dependents := [1]), BARRIER.(stage := Building(0, true))];
    Do(s, RecordWait(1));
    s := Apply(s, RecordWait(1));
    assert s.events == [USER.(dependents := [1]), BARRIER.(waits := [0], stage := Building(1, false))];
  }

  /** The barrier is queued. */
  lemma BarrierQueued() returns (s: State)
    ensures Reachable(s)
    ensures s == State([USER.(dependents := [1]), BARRIER.(waits := [0], stage := Enqueued(0))],
                       [FreshQueue([1], multiset{PUSH})], 1)
  {
    hide Reachable, Typed;
    s := BarrierLinked();
    Do(s, EndEvent(1));
    s := Apply(s, EndEvent(1));
    assert s.events == [USER.(dependents := [1]), BARRIER.(waits := [0], stage := Built)];
    Do(s, Append(1));
    s := Apply(s, Append(1));
    assert s.events == [USER.(dependents := [1]), BARRIER.(waits := [0], stage := Enqueued(0))];
    assert s.queues[0] == FreshQueue([1], multiset{PUSH});
  }

  /** A command is queued behind it. */
  lemma CommandBehindBarrier() returns (s: State)
    ensures Reachable(s) && |s.queues| == 1 && PUSH in s.queues[0].pushes
    ensures s == State([USER.(dependents := [1]), BARRIER.(waits := [0], stage := Enqueued(0)),
                        COMMAND.(stage := Enqueued(1))],
                       [FreshQueue([1, 2], s.queues[0].pushes)], 2)
  {
    hide Reachable, Typed;
    s := BarrierQueued();
    var before := s.events;
    Do(s, BeginEvent(0, Command, []));
    s := Apply(s, BeginEvent(0, Command, []));
    assert s.events == before + [COMMAND];
    Do(s, EndEvent(2));
    s := Apply(s, EndEvent(2));
    assert s.events == before + [COMMAND.(stage := Built)];
    Do(s, Append(2));
    s := Apply(s, Append(2));
    assert s.events == before + [COMMAND.(stage := Enqueued(1))];
    assert s.queues[0] == FreshQueue([1, 2], s.queues[0].pushes);
  }

  /** A reachable state in which the command passed the barrier, whose wait list is not complete. */
  lemma BarrierWaitsNotEnforced()
    ensures exists s: State, b: EventId, f: EventId ::
      && Reachable(s) && |s.queues| == 1 && Before(0, s.events, b, f) && s.events[b].kind == Barrier
      && f in s.queues[0].dispatched && b !in s.queues[0].dispatched
      && exists x :: x in s.events[b].waitList && x < |s.events| && !s.events[x].Done()
  {
    var s := CommandBehindBarrier();
    ReachableInv(s);
    assert HeadBarrier(s, 0, 1, 2);
    hide Reachable, Inv;
    var t := Overtaking(s, 0, 1, 2);
    RunReachable(s, t);
    ReachesExtends(s, t);
    assert Persists(s.events[2], t.events[2]);
    hide Reaches;
    assert Before(0, t.events, 1, 2);
    assert 0 in t.events[1].waitList && !t.events[0].Done();
  }
}
