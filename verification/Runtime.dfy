/**
 `Event::setStatus` and `CommandQueue::pushEventsOnDevice` as one thread runs them, each calling the
 other: the mutual recursion terminates, its effect is a run of the transition system, and it leaves
 no push, no notification and no instantaneous event unprocessed.
 */
module Runtime {
  import opened Wrappers
  import opened SchedulerModel
  import opened SchedulerSweep
  import opened SchedulerDrain
  import opened SchedulerInvariant
  import opened SchedulerScan
  import opened SchedulerSafety
  import opened SchedulerTheorems
  import opened SchedulerRuns
  import opened SchedulerProgress
  import opened CommandQueues

  // ----- States between the calls of one thread

  /** No mutex is held. */
  ghost predicate Sequential(s: State) {
    && (forall q :: 0 <= q < |s.queues| ==> s.queues[q].section.Free?)
    && (forall e :: 0 <= e < |s.events| ==> !s.events[e].stage.Building?)
  }

  /** Dispatched instantaneous events are complete, but for `x`. */
  ghost predicate Instants(s: State, x: Option<EventId>) {
    forall e: EventId :: InDispatched(s, e) && s.events[e].Instantaneous() && x != Some(e) ==> s.events[e].Done()
  }

  ghost predicate Ready(s: State, x: Option<EventId>) {
    Inv(s) && Sequential(s) && Instants(s, x)
  }

  /** What a call leaves as it was: the completions in progress, but for that of `x`. */
  ghost predicate Kept(s: State, t: State, x: Option<EventId>) {
    && |t.events| == |s.events| && |t.queues| == |s.queues|
    && forall e :: 0 <= e < |s.events| ==> KeptEvent(s.events[e], t.events[e], x == Some(e))
  }

  predicate KeptEvent(a: Event, b: Event, current: bool) {
    && b.kind == a.kind && b.parent == a.parent && b.stage == a.stage && b.dependents == a.dependents
    && (a.Done() ==> b.Done()) && (!current ==> b.progress == a.progress)
  }

  ghost predicate SamePushes(s: State, t: State) {
    && |t.queues| == |s.queues|
    && forall q :: 0 <= q < |s.queues| ==> t.queues[q].pushes == s.queues[q].pushes
  }

  /** A run that leaves less work. */
  ghost predicate Worked(s: State, t: State) {
    Reaches(s, t) && Less(WorkOf(t), WorkOf(s))
  }

  lemma WorkedTrans(s: State, t: State, u: State)
    requires Worked(s, t) && Worked(t, u)
    ensures Worked(s, u)
  {
    hide Reaches, WorkOf;
    ReachesTrans(s, t, u);
  }

  lemma WorkedStep(s: State, step: Step)
    requires Inv(s) && Enabled(s, step) && Internal(step)
    ensures Inv(Apply(s, step)) && Worked(s, Apply(s, step))
  {
    var t := Apply(s, step);
    assert Typed(s);
    hide Inv, WorkOf;
    InternalDecreases(s, step);
    hide Apply, Enabled;
    assert Next(s, t);
    NextKeepsInv(s, t);
    ReachesSelf(t);
    ReachesStep(s, t, t);
  }

  // ----- The parts of setStatus

  lemma BeginCall(s: State, e: EventId)
    requires Ready(s, Some(e)) && Enabled(s, BeginComplete(e))
    ensures var t := ApplyBeginComplete(s, e);
      Ready(t, None) && Kept(s, t, Some(e)) && Worked(s, t) && SamePushes(s, t)
  {
    hide Inv, Worked;
    WorkedStep(s, BeginComplete(e));
  }

  ghost predicate SameDispatched(s: State, t: State) {
    |t.queues| == |s.queues| && forall q :: 0 <= q < |s.queues| ==> t.queues[q].dispatched == s.queues[q].dispatched
  }

  lemma InstantsKept(s: State, t: State, x: Option<EventId>)
    requires Instants(s, None) && Kept(s, t, x) && SameDispatched(s, t)
    ensures Instants(t, None)
  {
    forall e: EventId | InDispatched(t, e) && t.events[e].Instantaneous() ensures t.events[e].Done() {
      assert KeptEvent(s.events[e], t.events[e], x == Some(e));
      assert InDispatched(s, e);
    }
  }

  lemma NotifyEnabled(s: State, e: EventId)
    requires Inv(s) && Sequential(s) && e < |s.events| && s.events[e].progress.Notifying?
    requires s.events[e].progress.next < |s.events[e].dependents|
    ensures Typed(s) && Enabled(s, Notify(e))
  {
    assert EventTyped(s.events[e], |s.events|, |s.queues|);
  }

  lemma NotifyKept(s: State, e: EventId)
    requires Typed(s) && Enabled(s, Notify(e)) && Sequential(s)
    ensures var t := ApplyNotify(s, e); Sequential(t) && Kept(s, t, Some(e)) && SameDispatched(s, t)
  {
    assert EventTyped(s.events[Dependent(s, e)], |s.events|, |s.queues|);
    NotifyKeepsDispatched(s, e);
    hide Typed, EventTyped, Without;
  }

  lemma NotifyCall(s: State, e: EventId)
    requires Ready(s, None) && e < |s.events| && s.events[e].progress.Notifying?
    requires s.events[e].progress.next < |s.events[e].dependents|
    ensures Typed(s) && Enabled(s, Notify(e))
    ensures var t := ApplyNotify(s, e);
      Ready(t, None) && Kept(s, t, Some(e)) && Worked(s, t)
  {
    hide Inv, Worked, Typed, Sequential, Kept, Instants, ApplyNotify;
    NotifyEnabled(s, e);
    NotifyKept(s, e);
    InstantsKept(s, ApplyNotify(s, e), Some(e));
    WorkedStep(s, Notify(e));
  }

  lemma NotifyParts(s: State, e: EventId)
    requires Typed(s) && Enabled(s, Notify(e))
    ensures var t, q := ApplyNotify(s, e), s.events[Dependent(s, e)].parent;
      && (q.Some? ==> q.value < |s.queues|)
      && t == State(NotifyEvents(s, e),
                    if Wakes(s, e) then AddPush(s, q.value,
                        Push(Some(Dependent(s, e)), if WakesOwn(s, e) then Some(e) else None)).queues
                    else s.queues, s.clock)
  {
    assert EventTyped(s.events[Dependent(s, e)], |s.events|, |s.queues|);
    hide Typed, Without, NotifyEvents;
  }

  lemma EndKept(s: State, e: EventId)
    requires e < |s.events| && s.events[e].progress.Notifying? && Sequential(s)
    requires s.events[e].parent.Some? ==> s.events[e].parent.value < |s.queues|
    ensures var t := ApplyEndComplete(s, e); Sequential(t) && Kept(s, t, Some(e)) && SameDispatched(s, t)
  {
  }

  lemma ParentInRange(s: State, e: EventId)
    requires Inv(s) && e < |s.events|
    ensures Typed(s) && (s.events[e].parent.Some? ==> s.events[e].parent.value < |s.queues|)
  {
    assert EventTyped(s.events[e], |s.events|, |s.queues|);
  }

  lemma EndCall(s: State, e: EventId)
    requires Ready(s, None) && e < |s.events| && s.events[e].progress.Notifying?
    requires s.events[e].progress.next == |s.events[e].dependents|
    ensures s.events[e].parent.Some? ==> s.events[e].parent.value < |s.queues|
    ensures var t := ApplyEndComplete(s, e);
      Ready(t, None) && Kept(s, t, Some(e)) && Worked(s, t)
  {
    hide Inv, Worked, Typed, Sequential, Kept, Instants, ApplyEndComplete;
    ParentInRange(s, e);
    EndKept(s, e);
    InstantsKept(s, ApplyEndComplete(s, e), Some(e));
    WorkedStep(s, EndComplete(e));
  }

  // ----- A push

  /** A scan changes events only by submitting them. */
  lemma {:induction false} DrainFrame(q: Queue, ev: seq<Event>)
    requires QueueTyped(q, |ev|)
    ensures var r := Drain(q, ev);
      && r.0.pushes == q.pushes && r.0.accounted == q.accounted && q.dispatched <= r.0.dispatched
      && forall e | 0 <= e < |ev| ::
           r.1[e] == ev[e] || (ev[e].status == Queued && r.1[e] == ev[e].(status := Submitted))
    decreases if q.section.Pushing? then |q.list| - q.section.index else 0,
              if q.section.Pushing? && q.section.index < |q.list| && ev[q.list[q.section.index]].status == Queued
              then 1 else 0
  {
    if q.section.Pushing? && q.section.index < |q.list| {
      var e := q.list[q.section.index];
      IterationProgress(q, ev);
      IterationFrame(q, ev[e]);
      DrainStep(q, ev);
      hide Drain, ScanIteration;
      var (q', submit) := ScanIteration(q, ev[e]);
      DrainFrame(q', AfterScan(ev, e, submit));
    }
  }

  lemma IterationFrame(q: Queue, event: Event)
    requires q.section.Pushing? && q.section.index < |q.list|
    ensures var (q', submit) := ScanIteration(q, event);
      q'.pushes == q.pushes && q'.accounted == q.accounted && q.dispatched <= q'.dispatched
  {
  }

  /** The state after a whole critical section of `pushEventsOnDevice`. */
  function Pushed(s: State, q: QueueId, p: Push, enough: bool): State
    requires q < |s.queues| && QueueTyped(EnterPush(s.queues[q], p, enough), |s.events|)
  {
    var (qu, ev) := Drain(EnterPush(s.queues[q], p, enough), s.events);
    State(ev, s.queues[q := qu], s.clock)
  }

  lemma EnterWorks(s: State, q: QueueId, p: Push, enough: bool)
    requires Inv(s) && q < |s.queues| && s.queues[q].section.Free? && p in s.queues[q].pushes
    ensures var t := s.(queues := s.queues[q := EnterPush(s.queues[q], p, enough)]);
      Inv(t) && Worked(s, t) && QueueTyped(t.queues[q], |t.events|)
  {
    assert Typed(s);
    hide Inv, Worked, EnterPush;
    WorkedStep(s, BeginPush(q, p, enough));
    InvTyped(s.(queues := s.queues[q := EnterPush(s.queues[q], p, enough)]), q);
  }

  lemma InvTyped(s: State, q: QueueId)
    requires Inv(s) && q < |s.queues|
    ensures QueueTyped(s.queues[q], |s.events|)
  {
  }

  lemma PushWorks(s: State, q: QueueId, p: Push, enough: bool)
    requires Inv(s) && q < |s.queues| && s.queues[q].section.Free? && p in s.queues[q].pushes
    ensures QueueTyped(EnterPush(s.queues[q], p, enough), |s.events|)
    ensures Inv(Pushed(s, q, p, enough)) && Worked(s, Pushed(s, q, p, enough))
  {
    hide Inv, WorkOf, Reaches, Drain, EnterPush, QueueTyped;
    var qu := EnterPush(s.queues[q], p, enough);
    var t := s.(queues := s.queues[q := qu]);
    EnterWorks(s, q, p, enough);
    DrainReaches(t, q);
    assert Drained(t, q) == Pushed(s, q, p, enough) by {
      assert t.queues[q := Drain(qu, s.events).0] == s.queues[q := Drain(qu, s.events).0];
    }
    if qu.section.Pushing? {
      WorkedTrans(s, t, Drained(t, q));
    } else {
      DrainedSelf(t, q);
    }
  }

  /** The early return: an out-of-order queue with more than 2 events on the device, once the reported
      completion is counted, does not scan for a push without ready event while the device is full. */
  predicate Early(qu: Queue, p: Push, enough: bool) {
    qu.outOfOrder && p.ready.None? && qu.onDevice - (if p.completed.Some? then 1 else 0) > 2 && enough
  }

  /** From `s` to `t` the push was served: after an early return only the completion is counted; otherwise
      every entry that a scan of the list takes is dispatched. */
  ghost predicate Served(s: State, q: QueueId, p: Push, enough: bool, t: State)
    requires q < |s.queues| && InRange(s.queues[q].list, s.events)
  {
    var qu := s.queues[q];
    && q < |t.queues|
    && if Early(qu, p, enough) then t == s.(queues := s.queues[q := TakePush(qu, p)])
       else forall k :: 0 <= k < |qu.list| && Taken(Rules(qu.outOfOrder, p.ready, true, 0), qu.list, s.events, k) ==>
              qu.list[k] in t.queues[q].dispatched
  }

  /** ... and if no event was ready, no instantaneous entry was taken and the limit of 64 was not met, then
      nothing is left that a further scan would take. */
  ghost predicate Exhausted(s: State, q: QueueId, p: Push, enough: bool, t: State)
    requires q < |s.queues| && InRange(s.queues[q].list, s.events) && q < |t.queues|
  {
    var qu := s.queues[q];
    var c := Rules(qu.outOfOrder, None, true, 0);
    p.ready == None && !Early(qu, p, enough) && !TakesInstant(c, qu.list, s.events)
    && VisitsOf(qu.list, s.events, |qu.list|) <= 64 ==>
      && InRange(t.queues[q].list, t.events)
      && forall k :: 0 <= k < |t.queues[q].list| ==> !Taken(c, t.queues[q].list, t.events, k)
  }

  lemma PushExhausts(s: State, q: QueueId, p: Push, enough: bool)
    requires Inv(s) && q < |s.queues| && s.queues[q].section.Free?
    requires QueueTyped(EnterPush(s.queues[q], p, enough), |s.events|)
    ensures InRange(s.queues[q].list, s.events) && Exhausted(s, q, p, enough, Pushed(s, q, p, enough))
  {
    hide Inv;
    ListedDistinct(s, q);
    var qu := EnterPush(s.queues[q], p, enough);
    EnterEarly(s.queues[q], p, enough);
    hide EnterPush, Taken, Drain, TakesInstant, VisitsOf, QueueTyped;
    var c := Rules(qu.outOfOrder, None, true, 0);
    if p.ready == None && !Early(s.queues[q], p, enough) && !TakesInstant(c, qu.list, s.events)
       && VisitsOf(qu.list, s.events, |qu.list|) <= 64 {
      var t := Pushed(s, q, p, enough);
      forall k: nat | k < |t.queues[q].list|
        ensures t.queues[q].list[k] < |t.events|
        ensures InRange(t.queues[q].list, t.events) && !Taken(c, t.queues[q].list, t.events, k)
      {
        NothingLeft(qu, s.events, k);
      }
    }
  }

  /** The event that a push leaves to be completed was taken as instantaneous. */
  lemma InstantWasTaken(s: State, q: QueueId, p: Push, enough: bool, e: EventId)
    requires Inv(s) && Instants(s, None) && q < |s.queues| && s.queues[q].section.Free?
    requires QueueTyped(EnterPush(s.queues[q], p, enough), |s.events|) && InRange(s.queues[q].list, s.events)
    requires var t := Pushed(s, q, p, enough);
      && OnlyInstant(s.queues[q].dispatched, t.queues[q].dispatched, t.events, Some(e))
      && !Early(s.queues[q], p, enough)
    ensures TakesInstant(Rules(s.queues[q].outOfOrder, p.ready, true, 0), s.queues[q].list, s.events)
  {
    ListedDistinct(s, q);
    var t, qu := Pushed(s, q, p, enough), EnterPush(s.queues[q], p, enough);
    EnterEarly(s.queues[q], p, enough);
    if e in s.queues[q].dispatched { DispatchedMoved(s, q, e); }
    ScanExact(qu, s.events, p.ready);
    hide Inv, EnterPush, Drain, Taken, QueueTyped, Instants;
    var c := Rules(qu.outOfOrder, p.ready, true, 0);
    assert e !in s.queues[q].dispatched && e in TakenOf(c, qu.list, s.events);
    var i :| 0 <= i < |qu.list| && Taken(c, qu.list, s.events, i) && qu.list[i] == e;
    assert s.events[qu.list[i]].kind != Command;
  }

  lemma ListedDistinct(s: State, q: QueueId)
    requires Inv(s) && q < |s.queues|
    ensures Distinct(s.queues[q].list) && InRange(s.queues[q].list, s.events)
  {
    assert QueueOk(q, s.queues[q], s.events);
    var list := s.queues[q].list;
    assert forall i :: 0 <= i < |list| ==> Mine(q, s.events, list[i]);
  }

  lemma EnterEarly(qu: Queue, p: Push, enough: bool)
    ensures var qu' := EnterPush(qu, p, enough);
      && qu'.list == qu.list && qu'.outOfOrder == qu.outOfOrder
      && (Early(qu, p, enough) ==> qu' == TakePush(qu, p))
      && (!Early(qu, p, enough) ==> qu'.section == Pushing(0, true, 0, p.ready) && qu'.dispatched == qu.dispatched)
  {
  }

  /** A critical section serves its push. */
  lemma PushServes(s: State, q: QueueId, p: Push, enough: bool)
    requires Inv(s) && q < |s.queues| && s.queues[q].section.Free?
    requires QueueTyped(EnterPush(s.queues[q], p, enough), |s.events|)
    ensures InRange(s.queues[q].list, s.events) && Served(s, q, p, enough, Pushed(s, q, p, enough))
  {
    hide Inv;
    ListedDistinct(s, q);
    var qu := EnterPush(s.queues[q], p, enough);
    EnterEarly(s.queues[q], p, enough);
    hide EnterPush, Taken, Drain;
    if Early(s.queues[q], p, enough) {
      assert TakePush(s.queues[q], p).section.Free?;
      DrainEnd(qu, s.events);
    } else {
      ScanExact(qu, s.events, p.ready);
      hide QueueTyped;
    }
  }

  /** What is dispatched stays so. */
  lemma ServedLater(s: State, q: QueueId, p: Push, enough: bool, t: State, u: State)
    requires q < |s.queues| && InRange(s.queues[q].list, s.events)
    requires Served(s, q, p, enough, t) && Reaches(t, u) && !Early(s.queues[q], p, enough)
    ensures Served(s, q, p, enough, u)
  {
    hide Taken, Reaches;
    ReachesExtends(t, u);
    assert Grows(t.queues[q], u.queues[q]);
  }

  /** An early return leaves no instantaneous event to complete. */
  lemma EarlyNoInstant(s: State, q: QueueId, p: Push, enough: bool, t: State, instant: Option<EventId>)
    requires Inv(s) && Instants(s, None) && q < |s.queues| && InRange(s.queues[q].list, s.events)
    requires Early(s.queues[q], p, enough) && Served(s, q, p, enough, t) && Instants(t, instant)
    requires OnlyInstant(s.queues[q].dispatched, t.queues[q].dispatched, t.events, instant)
    ensures instant == None
  {
    assert t.events == s.events && t.queues[q].dispatched == s.queues[q].dispatched;
    hide Inv, Instants;
    forall e | e in s.queues[q].dispatched ensures e < |s.events| && s.events[e].status != Queued {
      DispatchedMoved(s, q, e);
    }
  }

  lemma DispatchedMoved(s: State, q: QueueId, e: EventId)
    requires Inv(s) && Instants(s, None) && q < |s.queues| && e in s.queues[q].dispatched
    ensures e < |s.events| && s.events[e].status != Queued
  {
    assert QueueOk(q, s.queues[q], s.events);
    assert Mine(q, s.events, e) && InDispatched(s, e);
    if s.events[e].kind == Command { CommandMoved(s, e); }
  }

  lemma PushKept(s: State, q: QueueId, p: Push, enough: bool, instant: Option<EventId>)
    requires Sequential(s) && Instants(s, None) && q < |s.queues| && p in s.queues[q].pushes
    requires QueueTyped(EnterPush(s.queues[q], p, enough), |s.events|)
    requires OnlyInstant(s.queues[q].dispatched, Pushed(s, q, p, enough).queues[q].dispatched,
                         Pushed(s, q, p, enough).events, instant)
    ensures var t := Pushed(s, q, p, enough);
      Sequential(t) && Instants(t, instant) && Kept(s, t, None)
    ensures SamePushes(AddPush(Pushed(s, q, p, enough), q, p), s)
  {
    var t := Pushed(s, q, p, enough);
    var qu := EnterPush(s.queues[q], p, enough);
    EnterFrame(s.queues[q], p, enough);
    DrainFrame(qu, s.events);
    hide EnterPush, Drain, OnlyInstant;
    assert SamePushes(AddPush(t, q, p), s);
    PushedInstants(s, t, q, instant);
  }

  lemma EnterFrame(qu: Queue, p: Push, enough: bool)
    requires p in qu.pushes
    ensures var qu' := EnterPush(qu, p, enough);
      && qu'.pushes + multiset{p} == qu.pushes && qu'.dispatched == qu.dispatched
      && (qu.section.Free? ==> qu'.section.Free? || qu'.section.Pushing?)
  {
    assert (qu.pushes - multiset{p}) + multiset{p} == qu.pushes;
  }

  lemma PushedInstants(s: State, t: State, q: QueueId, instant: Option<EventId>)
    requires Instants(s, None) && Kept(s, t, None) && q < |s.queues| == |t.queues|
    requires forall k :: 0 <= k < |s.queues| && k != q ==> t.queues[k] == s.queues[k]
    requires OnlyInstant(s.queues[q].dispatched, t.queues[q].dispatched, t.events, instant)
    ensures Instants(t, instant)
  {
    forall e: EventId | InDispatched(t, e) && t.events[e].Instantaneous() && instant != Some(e)
      ensures t.events[e].Done()
    {
      assert KeptEvent(s.events[e], t.events[e], false);
      assert InDispatched(s, e);
    }
  }

  /** The instantaneous event that a push took off the list is to be completed next. */
  lemma InstantEnabled(s: State, q: QueueId, e: EventId)
    requires Inv(s) && q < |s.queues| && e in s.queues[q].dispatched && e < |s.events| && s.events[e].status == Queued
    ensures Enabled(s, BeginComplete(e))
  {
    assert QueueOk(q, s.queues[q], s.events);
    assert Mine(q, s.events, e);
  }

  lemma KeptTrans(s: State, t: State, u: State, x: Option<EventId>)
    requires Kept(s, t, x) && (Kept(t, u, None) || Kept(t, u, x))
    ensures Kept(s, u, x)
  {
  }

  /** A push that became pending between `s` and `t` was executed between `t` and `u`. */
  lemma AfterPush(s: State, t: State, u: State, q: QueueId, p: Push, x: Option<EventId>)
    requires Worked(s, t) && Worked(t, u) && Kept(s, t, x) && Kept(t, u, None)
    requires q < |s.queues| && t.queues == AddPush(s, q, p).queues && q < |u.queues| && SamePushes(AddPush(u, q, p), t)
    ensures Worked(s, u) && Kept(s, u, x) && SamePushes(u, s)
  {
    WorkedTrans(s, t, u);
    KeptTrans(s, t, u, x);
    hide Worked, Kept;
    assert AddPush(u, q, p).queues[q].pushes == u.queues[q].pushes + multiset{p};
    assert u.queues[q].pushes == (u.queues[q].pushes + multiset{p}) - multiset{p};
    assert s.queues[q].pushes == (s.queues[q].pushes + multiset{p}) - multiset{p};
    forall k | 0 <= k < |s.queues| ensures u.queues[k].pushes == s.queues[k].pushes {
      assert AddPush(u, q, p).queues[k].pushes == t.queues[k].pushes;
    }
  }

  lemma KeptAt(s: State, t: State, e: EventId)
    requires Kept(s, t, None) && e < |s.events|
    ensures e < |t.events| && t.events[e].progress == s.events[e].progress
    ensures t.events[e].dependents == s.events[e].dependents
    ensures s.events[e].Done() ==> t.events[e].Done()
  {
  }

  /** At the end of the call the event itself is no exception any more. */
  lemma CallEnds(s: State, t: State, e: EventId)
    requires Inv(s) && Kept(s, t, Some(e)) && e < |s.events| && !s.events[e].Done()
    requires e < |t.events| && t.events[e].progress.Idle?
    ensures Kept(s, t, None)
  {
    assert EventOk(s.events[e], s.clock);
  }

  lemma ReadyTyped(s: State, q: QueueId)
    requires Ready(s, None) && q < |s.queues|
    ensures QueueTyped(s.queues[q], |s.events|) && s.queues[q].section.Free?
  {
  }

  // ----- Quiet moments

  /** A single thread has nothing left to do. */
  ghost predicate Calm(s: State) {
    && Ready(s, None)
    && (forall e :: 0 <= e < |s.events| ==> s.events[e].progress.Idle?)
    && (forall q :: 0 <= q < |s.queues| ==> s.queues[q].pushes == multiset{})
  }

  lemma CalmAfter(s: State, t: State)
    requires Calm(s) && Ready(t, None) && Kept(s, t, None) && SamePushes(t, s)
    ensures Calm(t)
  {
    hide Ready;
    forall e | 0 <= e < |t.events| ensures t.events[e].progress.Idle? {
      assert KeptEvent(s.events[e], t.events[e], false);
    }
  }

  // ----- Building events

  /** Only dependents changed, and events were added. */
  ghost predicate Added(s: State, t: State) {
    && |s.events| <= |t.events| && t.queues == s.queues
    && (forall x :: 0 <= x < |s.events| ==> t.events[x] == s.events[x].(dependents := t.events[x].dependents))
    && (forall x :: |s.events| <= x < |t.events| ==> !t.events[x].stage.Building? && t.events[x].progress.Idle?)
  }

  lemma DispatchedKnown(s: State, q: QueueId, e: EventId)
    requires Inv(s) && q < |s.queues| && e in s.queues[q].dispatched
    ensures e < |s.events|
  {
    assert QueueOk(q, s.queues[q], s.events);
    assert Mine(q, s.events, e);
  }

  lemma CalmAdded(s: State, t: State)
    requires Calm(s) && Inv(t) && Added(s, t)
    ensures Calm(t)
  {
    hide Inv;
    forall e: EventId | InDispatched(t, e) && t.events[e].Instantaneous() ensures t.events[e].Done() {
      DispatchedKnown(s, t.events[e].parent.value, e);
      assert InDispatched(s, e);
    }
    forall x | 0 <= x < |t.events| ensures !t.events[x].stage.Building? && t.events[x].progress.Idle? {
      assert x < |s.events| ==> t.events[x] == s.events[x].(dependents := t.events[x].dependents);
    }
  }

  lemma CreateUserCall(s: State)
    requires Calm(s)
    ensures var t := s.(events := s.events + [NewEvent(User, None, [])]); Calm(t) && Reaches(s, t)
  {
    hide Inv, Reaches, Calm;
    CalmInv(s);
    var t := StepTo(s, CreateUser);
    CalmAdded(s, t);
  }

  lemma CalmInv(s: State)
    requires Calm(s)
    ensures Inv(s)
  {
  }

  predicate AllNameable(ev: seq<Event>, list: seq<EventId>) {
    forall i :: 0 <= i < |list| ==> list[i] < |ev| && Nameable(ev, list[i])
  }

  /** The state after the constructor of an event ran. */
  function Constructed(s: State, q: QueueId, kind: Kind, waitList: seq<EventId>): State
    requires kind != User && forall i :: 0 <= i < |waitList| ==> waitList[i] < |s.events|
  {
    s.(events := LinkAll(s.events + [NewEvent(kind, Some(q), waitList)], |s.events|))
  }

  lemma NewLinkable(s: State, q: QueueId, kind: Kind, waitList: seq<EventId>)
    requires kind != User && forall i :: 0 <= i < |waitList| ==> waitList[i] < |s.events|
    ensures Linkable(s.events + [NewEvent(kind, Some(q), waitList)], |s.events|)
  {
  }

  lemma ConstructedAdded(s: State, q: QueueId, kind: Kind, waitList: seq<EventId>)
    requires kind != User && forall i :: 0 <= i < |waitList| ==> waitList[i] < |s.events|
    ensures Added(s, Constructed(s, q, kind, waitList))
    ensures var event, e := NewEvent(kind, Some(q), waitList), |s.events|;
      LinkedBy(s.events + [event], Constructed(s, q, kind, waitList).events, e, waitList)
  {
    var event, e := NewEvent(kind, Some(q), waitList), |s.events|;
    NewLinkable(s, q, kind, waitList);
    LinkExact(s.events + [event], e);
    assert waitList[0..] == waitList;
    hide LinkAll, Linkable, Unfinished;
  }

  lemma ConstructCall(s: State, q: QueueId, kind: Kind, waitList: seq<EventId>)
    requires kind != User && q < |s.queues| && AllNameable(s.events, waitList)
    requires Calm(s)
    ensures Calm(Constructed(s, q, kind, waitList)) && Reaches(s, Constructed(s, q, kind, waitList))
  {
    hide Inv, Reaches, Calm, LinkAll, Linkable, Added, LinkedBy;
    CalmInv(s);
    NewLinkable(s, q, kind, waitList);
    var s1 := StepTo(s, BeginEvent(q, kind, waitList));
    LinkReaches(s1, |s.events|);
    var t := Constructed(s, q, kind, waitList);
    ReachesTrans(s, s1, t);
    ConstructedAdded(s, q, kind, waitList);
    CalmAdded(s, t);
  }

  lemma CalmExcept(s: State, e: EventId)
    requires Calm(s)
    ensures Ready(s, Some(e))
  {
    hide Inv;
  }

  /** Appending an event leaves its push to be executed. */
  lemma AppendCall(s: State, e: EventId)
    requires Calm(s) && e < |s.events| && s.events[e].stage.Built? && s.events[e].parent.Some?
    ensures s.events[e].parent.value < |s.queues|
    ensures var t, q := ApplyAppend(s, e), s.events[e].parent.value;
      && Ready(t, None) && Reaches(s, t) && t.queues[q].pushes == multiset{Push(None, None)}
      && (forall x :: 0 <= x < |t.events| ==> t.events[x].progress.Idle?)
      && (forall k :: 0 <= k < |t.queues| && k != q ==> t.queues[k].pushes == multiset{})
  {
    hide Inv;
    ParentInRange(s, e);
    var q := s.events[e].parent.value;
    var t := ApplyAppend(s, e);
    assert Sequential(s) && IsFree(s, q);
    AppendReaches(s, t, e);
    AppendInstants(s, t, e);
    hide Reaches, Instants;
    assert multiset{} + multiset{Push(None, None)} == multiset{Push(None, None)};
  }

  lemma AppendInstants(s: State, t: State, e: EventId)
    requires Instants(s, None) && e < |s.events| && s.events[e].parent.Some? && s.events[e].parent.value < |s.queues|
    requires t == ApplyAppend(s, e)
    ensures Instants(t, None)
  {
    forall x: EventId | InDispatched(t, x) && t.events[x].Instantaneous() ensures t.events[x].Done() {
      assert InDispatched(s, x);
    }
  }

  lemma FlushCall(s: State, q: QueueId)
    requires Calm(s) && q < |s.queues|
    ensures var t := AddPush(s, q, Push(None, None));
      && Ready(t, None) && Reaches(s, t) && t.queues[q].pushes == multiset{Push(None, None)}
      && (forall x :: 0 <= x < |t.events| ==> t.events[x].progress.Idle?)
      && (forall k :: 0 <= k < |t.queues| && k != q ==> t.queues[k].pushes == multiset{})
  {
    hide Inv, Reaches;
    var t := StepTo(s, SchedulerModel.Flush(q));
    assert multiset{} + multiset{Push(None, None)} == multiset{Push(None, None)};
    assert Kept(s, t, None) && SameDispatched(s, t);
    InstantsKept(s, t, None);
    hide Instants;
  }

  lemma FlushIdle(s: State, t: State, q: QueueId)
    requires q < |s.queues|
    requires var s1 := AddPush(s, q, Push(None, None));
      t == s1.(queues := s1.queues[q := TakePush(s1.queues[q], Push(None, None))])
    ensures t == s
  {
    var p := Push(None, None);
    assert (s.queues[q].pushes + multiset{p}) - multiset{p} == s.queues[q].pushes;
    assert t.queues == s.queues;
  }

  lemma CalmListed(s: State, q: QueueId)
    requires Calm(s) && q < |s.queues|
    ensures InRange(s.queues[q].list, s.events)
  {
    ListedDistinct(s, q);
  }

  lemma AppendReaches(s: State, t: State, e: EventId)
    requires Inv(s) && Enabled(s, Append(e)) && s.events[e].parent.value < |s.queues| && t == ApplyAppend(s, e)
    ensures Inv(t) && Reaches(s, t)
  {
    assert Typed(s);
    hide Inv, ApplyAppend;
    assert t == Apply(s, Append(e));
    assert Next(s, t);
    NextKeepsInv(s, t);
    ReachesSelf(t);
    ReachesStep(s, t, t);
  }

  lemma CalmAfterPush(t: State, u: State, q: QueueId)
    requires Ready(u, None) && Kept(t, u, None) && q < |t.queues| == |u.queues|
    requires t.queues[q].pushes == multiset{Push(None, None)} && SamePushes(AddPush(u, q, Push(None, None)), t)
    requires forall x :: 0 <= x < |t.events| ==> t.events[x].progress.Idle?
    requires forall k :: 0 <= k < |t.queues| && k != q ==> t.queues[k].pushes == multiset{}
    ensures Calm(u)
  {
    hide Ready;
    var p := Push(None, None);
    forall x | 0 <= x < |u.events| ensures u.events[x].progress.Idle? {
      assert KeptEvent(t.events[x], u.events[x], false);
    }
    forall k | 0 <= k < |u.queues| ensures u.queues[k].pushes == multiset{} {
      assert AddPush(u, q, p).queues[k].pushes == t.queues[k].pushes;
      assert u.queues[q].pushes == (u.queues[q].pushes + multiset{p}) - multiset{p};
    }
  }

  /** If then no command is in flight and no user event open, every queued event is complete. */
  lemma CalmIsComplete(s: State)
    requires Reachable(s) && Calm(s)
    requires forall e :: 0 <= e < |s.events| && s.events[e].kind == User ==> s.events[e].Done()
    requires forall e :: 0 <= e < |s.events| && s.events[e].kind == Command ==> s.events[e].status in {Queued, Complete}
    ensures forall e :: 0 <= e < |s.events| && s.events[e].stage.Enqueued? ==> s.events[e].Done()
    ensures forall q :: 0 <= q < |s.queues| ==> s.queues[q].list == [] && s.queues[q].sleepers == 0
  {
    hide Inv, Reachable;
    forall e | 0 <= e < |s.events| && InDispatched(s, e) ensures s.events[e].Done() {
      if s.events[e].kind == Command { CommandMoved(s, e); }
    }
    NoStarvation(s);
  }

  /** Then no event waits for a complete one. */
  lemma CalmWaits(s: State, e: EventId, x: EventId)
    requires Calm(s) && e < |s.events| && x in s.events[e].waits
    ensures x < |s.events| && !s.events[x].Done()
  {
    assert WaitOk(s.events, e) && Owes(s.events[x], e);
  }

  /** And the first unfinished entry of an in-order queue is in flight, or waits for an unfinished event:
      nothing that could be dispatched is left. */
  lemma CalmInOrder(s: State, q: QueueId)
    requires Calm(s) && q < |s.queues| && !s.queues[q].outOfOrder && s.queues[q].list != []
    ensures exists i ::
      && 0 <= i < |s.queues[q].list| && s.queues[q].list[i] < |s.events|
      && (forall j :: 0 <= j < i ==> s.queues[q].list[j] < |s.events| && s.events[s.queues[q].list[j]].Done())
      && var e := s.events[s.queues[q].list[i]];
         e.status in {Submitted, Running} || (e.status == Queued && e.waits != [])
  {
    var qu, ev := s.queues[q], s.events;
    assert QueueOk(q, qu, ev);
    hide Inv, WaitOk;
    if Blocked(qu.list, ev) {
      var i :| BlockedAt(qu.list, ev, i);
    } else {
      assert Obliged(qu);
      var e :| e in qu.dispatched && e !in qu.accounted;
      InFlightBlocks(s, q, e);
    }
  }

  /** An unreported dispatched event of an in-order queue is in flight at the head of the list. */
  lemma InFlightBlocks(s: State, q: QueueId, e: EventId)
    requires Calm(s) && q < |s.queues| && !s.queues[q].outOfOrder
    requires e in s.queues[q].dispatched && e !in s.queues[q].accounted
    ensures Blocked(s.queues[q].list, s.events)
  {
    var qu, ev := s.queues[q], s.events;
    assert QueueOk(q, qu, ev);
    assert Mine(q, ev, e) && InDispatched(s, e);
    forall p ensures p !in qu.pushes {}
    assert !ev[e].Done();
    hide Inv, WaitOk, Accounting, Reported, Histories;
    assert e in qu.list || Settled(qu, ev, e);
    var i :| 0 <= i < |qu.list| && qu.list[i] == e;
    forall j | 0 <= j < i ensures qu.list[j] < |ev| && ev[qu.list[j]].Done() {
      assert Mine(q, ev, qu.list[j]) && Before(q, ev, qu.list[j], e);
      assert Cleared(q, qu, ev, e);
      assert Settled(qu, ev, qu.list[j]) && qu.list[j] in qu.list;
    }
    assert BlockedAt(qu.list, ev, i);
  }

  lemma CommandMoved(s: State, e: EventId)
    requires Inv(s) && InDispatched(s, e) && s.events[e].kind == Command
    ensures s.events[e].status != Queued
  {
    var q := s.events[e].parent.value;
    assert QueueOk(q, s.queues[q], s.events);
    if e !in s.queues[q].list { assert Settled(s.queues[q], s.events, e); }
  }

  class Scheduler {
    const table: EventTable
    const queues: seq<CommandQueue>
    var clock: nat

    /** Distinct queues over one table of events. */
    ghost predicate Valid() {
      && (forall i :: 0 <= i < |queues| ==> queues[i].table == table)
      && (forall i, j :: 0 <= i < j < |queues| ==> queues[i] != queues[j])
    }

    ghost function Now(): State
      reads this, table, queues
    {
      State(table.events, seq(|queues|, i requires 0 <= i < |queues| reads queues => queues[i].View(Free)), clock)
    }

    /** New queues over an empty table. */
    constructor (table: EventTable, queues: seq<CommandQueue>)
      requires forall i :: 0 <= i < |queues| ==> queues[i].table == table
      requires forall i, j :: 0 <= i < j < |queues| ==> queues[i] != queues[j]
      requires table.events == []
      requires forall i :: 0 <= i < |queues| ==>
        queues[i].View(Free) == Queue(queues[i].outOfOrder, [], 0, 0, 0, true, Free, multiset{}, 0, 0, {}, {})
      ensures this.table == table && this.queues == queues && Valid() && Init(Now()) && Calm(Now())
    {
      this.table, this.queues, clock := table, queues, 0;
      new;
      InitInv(Now());
    }

    /** `clCreateUserEvent`. */
    method CreateUserEvent() returns (e: EventId)
      requires Valid() && Calm(Now())
      modifies table
      ensures Calm(Now()) && Reaches(old(Now()), Now())
      ensures e == |old(table.events)|
      ensures table.events == old(table.events) + [Event(User, None, Submitted, [], [], [], Built, Idle)]
    {
      hide Calm, Reaches;
      ghost var s := Now();
      CreateUserCall(s);
      e := |table.events|;
      table.events := table.events + [NewEvent(User, None, [])];
      assert Now().queues == s.queues;
    }

    /** The constructor of an event of queue `q`, which is then ready for `QueueEvent`. */
    method BuildEvent(q: QueueId, kind: Kind, waitList: seq<EventId>) returns (e: EventId)
      requires kind != User && q < |queues| && AllNameable(table.events, waitList)
      requires Valid() && Calm(Now())
      modifies table
      ensures e == |old(table.events)|
      ensures LinkedBy(old(table.events) + [Event(kind, Some(q), Queued, waitList, [], [], Building(0, false), Idle)],
                       table.events, e, waitList)
      ensures Calm(Now()) && Reaches(old(Now()), Now())
    {
      hide Calm, Reaches, LinkAll, Linkable, LinkedBy, Added;
      ghost var s := Now();
      ConstructCall(s, q, kind, waitList);
      ConstructedAdded(s, q, kind, waitList);
      NewLinkable(s, q, kind, waitList);
      e := |table.events|;
      table.events := table.events + [NewEvent(kind, Some(q), waitList)];
      table.LinkWaits(e);
      assert Now().queues == s.queues;
      assert Now() == Constructed(s, q, kind, waitList);
    }

    /** `flush`: a push that reports no completion; `enough` is the answer of the device. Unless the early
        return applies, every entry that a scan takes is dispatched. */
    method Flush(q: QueueId, enough: bool)
      requires Valid() && Calm(Now()) && q < |queues|
      modifies table, queues
      ensures Calm(Now()) && Reaches(old(Now()), Now())
      ensures InRange(old(queues[q].list), old(table.events))
      ensures if queues[q].outOfOrder && old(queues[q].onDevice) > 2 && enough then Now() == old(Now())
              else forall k | 0 <= k < |old(queues[q].list)| ::
                Taken(Rules(queues[q].outOfOrder, None, true, 0), old(queues[q].list), old(table.events), k) ==>
                  old(queues[q].list)[k] in queues[q].dispatched
      ensures Exhausted(old(Now()), q, Push(None, None), enough, Now())
    {
      hide Calm, Reaches, Ready, WorkOf, Kept, Taken, TakesInstant, VisitsOf;
      ghost var s := Now();
      FlushCall(s, q);
      CalmListed(s, q);
      queues[q].pushes := queues[q].pushes + multiset{Push(None, None)};
      assert Now().queues == s.queues[q := queues[q].View(Free)];
      ghost var t := Now();
      assert t == AddPush(s, q, Push(None, None));
      PushEvents(q, None, None, enough);
      CalmAfterPush(t, Now(), q);
      ReachesTrans(s, t, Now());
      if Early(t.queues[q], Push(None, None), enough) { FlushIdle(s, Now(), q); }
    }

    /** A device reports the end of a command, or the host that of a user event: all consequences are
        drawn before the call returns. */
    method FinishEvent(e: EventId)
      requires Valid() && Calm(Now()) && Enabled(Now(), BeginComplete(e))
      modifies table, queues
      ensures Calm(Now()) && Reaches(old(Now()), Now())
      ensures e < |table.events| && table.events[e].Done()
    {
      hide Calm, Inv, Reaches;
      ghost var s := Now();
      CalmExcept(s, e);
      SetComplete(e);
      CalmAfter(s, Now());
    }

    /** `queueEvent`: append and push. */
    method QueueEvent(e: EventId, enough: bool)
      requires Valid() && Calm(Now())
      requires e < |table.events| && table.events[e].stage.Built? && table.events[e].parent.Some?
      modifies this`clock, table, queues
      ensures Calm(Now()) && Reaches(old(Now()), Now())
      ensures e < |table.events| && table.events[e].stage == Enqueued(old(clock))
      ensures clock == old(clock) + 1
      ensures var s, q := old(Now()), old(table.events)[e].parent.value;
        && q < |s.queues|
        && var t := ApplyAppend(s, e);
           InRange(t.queues[q].list, t.events) && Served(t, q, Push(None, None), enough, Now())
    {
      hide Calm, Inv, Reaches, Ready, WorkOf;
      ghost var s := Now();
      AppendCall(s, e);
      var q := table.events[e].parent.value;
      table.events := table.events[e := table.events[e].(stage := Enqueued(clock))];
      queues[q].QueueEvent(e);
      clock := clock + 1;
      assert Now().queues == s.queues[q := queues[q].View(Free)];
      assert Now() == ApplyAppend(s, e);
      ghost var t := Now();
      PushEvents(q, None, None, enough);
      assert KeptEvent(t.events[e], table.events[e], false);
      CalmAfterPush(t, Now(), q);
      ReachesTrans(s, t, Now());
    }

    /** `pushEventsOnDevice`, with the completion of the instantaneous event that it may find. */
    method PushEvents(q: QueueId, ready: Option<EventId>, done: Option<EventId>, enough: bool)
      requires Valid() && q < |queues| && Push(ready, done) in queues[q].pushes && Ready(Now(), None)
      modifies table, queues
      ensures Ready(Now(), None) && Worked(old(Now()), Now()) && Kept(old(Now()), Now(), None)
      ensures SamePushes(AddPush(Now(), q, Push(ready, done)), old(Now()))
      ensures InRange(old(queues[q].list), old(table.events))
      ensures Served(old(Now()), q, Push(ready, done), enough, Now())
      ensures Exhausted(old(Now()), q, Push(ready, done), enough, Now())
      decreases WorkOf(Now()).statuses, WorkOf(Now()).listed, WorkOf(Now()).loops, WorkOf(Now()).pushes,
                WorkOf(Now()).sections, WorkOf(Now()).woken
    {
      hide Inv, Instants, Kept, Reaches, WorkOf, Drain, EnterPush, Served, Early, Taken, TakesInstant, VisitsOf;
      ghost var s, p := Now(), Push(ready, done);
      PushWorks(s, q, p, enough);
      ReadyTyped(s, q);
      PushServes(s, q, p, enough);
      PushExhausts(s, q, p, enough);
      var instant := queues[q].PushEventsOnDevice(ready, done, enough);
      assert Now().queues == s.queues[q := queues[q].View(Free)];
      assert Now() == Pushed(s, q, p, enough);
      PushKept(s, q, p, enough, instant);
      if instant.Some? {
        ghost var t := Now();
        if Early(s.queues[q], p, enough) { EarlyNoInstant(s, q, p, enough, t, instant); }
        InstantWasTaken(s, q, p, enough, instant.value);
        InstantEnabled(t, q, instant.value);
        SetComplete(instant.value);
        WorkedTrans(s, t, Now());
        KeptTrans(s, t, Now(), None);
        ServedLater(s, q, p, enough, t, Now());
      }
    }

    /** `setStatus(CL_COMPLETE)`: sets the status, then notifies the dependents one by one and pushes
        the queues of those that became ready. */
    method SetComplete(e: EventId)
      requires Valid() && Ready(Now(), Some(e)) && Enabled(Now(), BeginComplete(e))
      modifies table, queues
      ensures Ready(Now(), None) && Worked(old(Now()), Now()) && Kept(old(Now()), Now(), None)
      ensures SamePushes(Now(), old(Now()))
      ensures e < |table.events| && table.events[e].Done()
      decreases WorkOf(Now()).statuses, WorkOf(Now()).listed, WorkOf(Now()).loops, WorkOf(Now()).pushes,
                WorkOf(Now()).sections, WorkOf(Now()).woken
    {
      hide Inv, Sequential, Instants, Reaches, WorkOf;
      ghost var s := Now();
      BeginCall(s, e);
      hide Kept;
      table.events := table.events[e := table.events[e].(status := Complete, progress := Notifying(0, false))];
      assert Now() == ApplyBeginComplete(s, e);
      var i, alreadyPushed := 0, false;
      while i < |table.events[e].dependents|
        invariant e < |table.events| && table.events[e].progress == Notifying(i, alreadyPushed)
        invariant i <= |table.events[e].dependents| && table.events[e].Done()
        invariant Ready(Now(), None) && Worked(s, Now()) && Kept(s, Now(), Some(e)) && SamePushes(Now(), s)
      {
        ghost var t := Now();
        alreadyPushed := NotifyDependent(e, i, alreadyPushed);
        i := i + 1;
        WorkedTrans(s, t, Now());
        KeptTrans(s, t, Now(), Some(e));
      }
      ghost var t := Now();
      EndNotifying(e, alreadyPushed);
      WorkedTrans(s, t, Now());
      KeptTrans(s, t, Now(), Some(e));
      CallEnds(s, Now(), e);
    }

    /** After the dependents loop. */
    method EndNotifying(e: EventId, alreadyPushed: bool)
      requires Valid() && Ready(Now(), None) && e < |table.events|
      requires table.events[e].progress == Notifying(|table.events[e].dependents|, alreadyPushed)
      modifies table, queues
      ensures e < |table.events| && table.events[e].progress.Idle?
      ensures old(table.events)[e].Done() ==> table.events[e].Done()
      ensures Ready(Now(), None) && Worked(old(Now()), Now()) && Kept(old(Now()), Now(), Some(e))
      ensures SamePushes(Now(), old(Now()))
      decreases WorkOf(Now()).statuses, WorkOf(Now()).listed, WorkOf(Now()).loops, WorkOf(Now()).pushes,
                WorkOf(Now()).sections, WorkOf(Now()).woken
    {
      hide Inv, Sequential, Instants, Kept, Reaches, WorkOf;
      ghost var s := Now();
      EndCall(s, e);
      var q := table.events[e].parent;
      table.events := table.events[e := table.events[e].(progress := Idle)];
      if q.Some? && !alreadyPushed {
        queues[q.value].pushes := queues[q.value].pushes + multiset{Push(None, Some(e))};
        assert Now().queues == s.queues[q.value := queues[q.value].View(Free)];
        assert Now() == ApplyEndComplete(s, e);
        ghost var t := Now();
        var enough: bool := *;
        PushEvents(q.value, None, Some(e), enough);
        AfterPush(s, t, Now(), q.value, Push(None, Some(e)), Some(e));
        KeptAt(t, Now(), e);
      } else {
        assert Now() == ApplyEndComplete(s, e);
      }
    }

    /** `removeWaitEvent` on the dependent number `i`, which is `d`. */
    method RemoveWait(e: EventId, i: nat, alreadyPushed: bool) returns (d: EventId, q: QueueId, wakes: bool, own: bool)
      requires Enabled(Now(), Notify(e)) && table.events[e].progress == Notifying(i, alreadyPushed)
      modifies table
      ensures d == Dependent(old(Now()), e)
      ensures wakes <==> Wakes(old(Now()), e)
      ensures own <==> WakesOwn(old(Now()), e)
      ensures table.events == NotifyEvents(old(Now()), e)
      ensures table.events[e].progress == Notifying(i + 1, alreadyPushed || own)
      ensures wakes ==> d < |old(table.events)| && old(table.events)[d].parent == Some(q)
    {
      q := 0;
      d := table.events[e].dependents[i];
      wakes := table.RemoveWaitEvent(d, e);
      wakes := wakes && table.events[d].parent.Some?;
      own := wakes && table.events[d].parent == table.events[e].parent;
      if wakes { q := table.events[d].parent.value; }
      table.events := table.events[e := table.events[e].(progress := Notifying(i + 1, alreadyPushed || own))];
    }

    /** One iteration of the dependents loop. */
    method NotifyDependent(e: EventId, i: nat, alreadyPushed: bool) returns (pushed: bool)
      requires Valid() && Ready(Now(), None) && e < |table.events|
      requires table.events[e].progress == Notifying(i, alreadyPushed) && i < |table.events[e].dependents|
      modifies table, queues
      ensures e < |table.events| && table.events[e].progress == Notifying(i + 1, pushed)
      ensures i + 1 <= |table.events[e].dependents| && (old(table.events)[e].Done() ==> table.events[e].Done())
      ensures Ready(Now(), None) && Worked(old(Now()), Now()) && Kept(old(Now()), Now(), Some(e))
      ensures SamePushes(Now(), old(Now()))
      decreases WorkOf(Now()).statuses, WorkOf(Now()).listed, WorkOf(Now()).loops, WorkOf(Now()).pushes,
                WorkOf(Now()).sections, WorkOf(Now()).woken
    {
      hide Inv, Typed, Sequential, Instants, Reaches, WorkOf, ApplyNotify, NotifyEvents, Wakes, WakesOwn, Enabled;
      ghost var s := Now();
      NotifyCall(s, e);
      NotifyParts(s, e);
      var d, q, wakes, own := RemoveWait(e, i, alreadyPushed);
      pushed := alreadyPushed || own;
      assert Kept(s, ApplyNotify(s, e), Some(e));
      assert KeptEvent(s.events[e], table.events[e], true);
      hide Kept;
      if wakes {
        ghost var p := Push(Some(d), if own then Some(e) else None);
        queues[q].pushes := queues[q].pushes + multiset{p};
        assert Now().queues == s.queues[q := queues[q].View(Free)];
        assert Now() == ApplyNotify(s, e);
        ghost var t := Now();
        var enough: bool := *;
        PushEvents(q, Some(d), if own then Some(e) else None, enough);
        AfterPush(s, t, Now(), q, p, Some(e));
        KeptAt(t, Now(), e);
      } else {
        assert Now() == ApplyNotify(s, e);
      }
    }
  }
}
