/** What no step undoes, and theorems about two moments of a run. */
module SchedulerRuns {
  import opened Wrappers
  import opened SchedulerModel
  import opened SchedulerInvariant
  import opened SchedulerScan
  import opened SchedulerComplete
  import opened SchedulerSafety
  import opened SchedulerTheorems

  /** `t` is a later state: identities, wait lists, appends, completions and dispatches persist. */
  ghost predicate Extends(s: State, t: State) {
    && |s.events| <= |t.events| && |s.queues| == |t.queues|
    && (forall e :: 0 <= e < |s.events| ==> Persists(s.events[e], t.events[e]))
    && (forall q :: 0 <= q < |s.queues| ==> Grows(s.queues[q], t.queues[q]))
  }

  predicate Grows(a: Queue, b: Queue) { a.outOfOrder == b.outOfOrder && a.dispatched <= b.dispatched }

  predicate Persists(a: Event, b: Event) {
    && a.kind == b.kind && a.parent == b.parent && a.waitList == b.waitList
    && (a.stage.Enqueued? ==> b.stage == a.stage) && (a.Done() ==> b.Done())
  }

  lemma ScanGrows(qu: Queue, event: Event)
    requires qu.section.Pushing?
    ensures Grows(qu, EndScan(qu))
    ensures qu.section.index < |qu.list| ==> Grows(qu, ScanIteration(qu, event).0)
  {
  }

  lemma ScanExtends(s: State, q: QueueId)
    requires Typed(s) && Enabled(s, Scan(q))
    ensures Extends(s, ApplyScan(s, q))
  {
    var qu := s.queues[q];
    ScanStep(s, q);
    if qu.section.index < |qu.list| {
      ScanGrows(qu, s.events[qu.list[qu.section.index]]);
    } else {
      ScanGrows(qu, NewEvent(User, None, []));
    }
    hide ScanIteration, EndScan, ApplyScan;
    if qu.section.index < |qu.list| && ScanIteration(qu, s.events[qu.list[qu.section.index]]).1 {
      SubmitsCommand(qu, s.events[qu.list[qu.section.index]]);
    }
  }

  lemma BuildExtends(s: State, step: Step)
    requires Typed(s) && Enabled(s, step) && (step.LinkWait? || step.RecordWait?)
    ensures Extends(s, Apply(s, step))
  {
    assert EventTyped(s.events[step.event], |s.events|, |s.queues|);
    hide Typed;
  }

  lemma EndExtends(s: State, e: EventId)
    requires Typed(s) && Enabled(s, EndComplete(e))
    ensures Extends(s, Apply(s, EndComplete(e)))
  {
    assert EventTyped(s.events[e], |s.events|, |s.queues|);
    hide Typed, EventTyped;
  }

  lemma NotifyExtends(s: State, e: EventId)
    requires Typed(s) && Enabled(s, Notify(e))
    ensures Extends(s, ApplyNotify(s, e))
  {
    assert EventTyped(s.events[Dependent(s, e)], |s.events|, |s.queues|);
    hide Typed, EventTyped, Without;
  }

  lemma EventExtends(s: State, step: Step)
    requires Typed(s) && Enabled(s, step)
    requires step.CreateUser? || step.BeginEvent? || step.EndEvent? || step.Append? || step.Start? ||
             step.BeginComplete?
    ensures Extends(s, Apply(s, step))
  {
    if step.Append? { assert EventTyped(s.events[step.event], |s.events|, |s.queues|); }
    hide Typed, EventTyped;
  }

  lemma QueueExtends(s: State, step: Step)
    requires Typed(s) && Enabled(s, step)
    requires step.Flush? || step.Sleep? || step.Recheck? || step.BeginClean? || step.Clean? || step.BeginPush?
    ensures Extends(s, Apply(s, step))
  {
    if step.Clean? {
      assert QueueTyped(s.queues[step.queue], |s.events|);
      assert Grows(s.queues[step.queue], CleanIteration(s.queues[step.queue], s.events));
    }
    if step.BeginPush? { assert Grows(s.queues[step.queue], EnterPush(s.queues[step.queue], step.push, step.enough)); }
    hide Typed, QueueTyped, CleanIteration, EnterPush;
  }

  lemma NextExtends(s: State, t: State)
    requires Next(s, t)
    ensures Extends(s, t)
  {
    var step :| Enabled(s, step) && t == Apply(s, step);
    if step.Scan? {
      ScanExtends(s, step.queue);
    } else if step.Notify? {
      NotifyExtends(s, step.event);
    } else if step.LinkWait? || step.RecordWait? {
      BuildExtends(s, step);
    } else if step.EndComplete? {
      EndExtends(s, step.event);
    } else if step.Flush? || step.Sleep? || step.Recheck? || step.BeginClean? || step.Clean? || step.BeginPush? {
      QueueExtends(s, step);
    } else {
      EventExtends(s, step);
    }
  }

  lemma {:induction false} RunExtends(run: seq<State>)
    requires IsRun(run)
    ensures Extends(run[0], run[|run| - 1])
  {
    hide Next;
    if |run| > 1 {
      RunExtends(run[1..]);
      assert Next(run[0], run[1]);
      NextExtends(run[0], run[1]);
    }
  }

  // ----- Putting runs together

  lemma ReachesSelf(s: State)
    ensures Reaches(s, s)
  {
    var run := [s];
    assert IsRun(run) && run[0] == s && run[|run| - 1] == s;
  }

  lemma ReachesTrans(s: State, t: State, u: State)
    requires Reaches(s, t) && Reaches(t, u)
    ensures Reaches(s, u)
  {
    var run1 :| IsRun(run1) && run1[0] == s && run1[|run1| - 1] == t;
    var run2 :| IsRun(run2) && run2[0] == t && run2[|run2| - 1] == u;
    var run := run1 + run2[1..];
    hide Next;
    forall i | 0 <= i < |run| - 1 ensures Next(run[i], run[i + 1]) {
      if i < |run1| - 1 {
        assert Next(run1[i], run1[i + 1]);
      } else {
        assert Next(run2[i - |run1| + 1], run2[i - |run1| + 2]);
      }
    }
    assert IsRun(run) && run[0] == s && run[|run| - 1] == u;
  }

  lemma ReachesNext(s: State, t: State)
    requires Next(s, t)
    ensures Reaches(s, t)
  {
    var run := [s, t];
    assert IsRun(run) && run[0] == s && run[|run| - 1] == t;
  }

  lemma ReachesStep(s: State, t: State, u: State)
    requires Next(s, t) && Reaches(t, u)
    ensures Reaches(s, u)
  {
    ReachesNext(s, t);
    hide Reaches, Next;
    ReachesTrans(s, t, u);
  }

  lemma RunReachable(s: State, t: State)
    requires Reachable(s) && Reaches(s, t)
    ensures Reachable(t)
  {
    var s0 :| Init(s0) && Reaches(s0, s);
    hide Reaches, Init;
    ReachesTrans(s0, s, t);
  }

  /** Later states of a run are reached from earlier ones. */
  lemma RunReaches(run: seq<State>, i: nat, j: nat)
    requires IsRun(run) && i <= j < |run|
    ensures Reaches(run[i], run[j])
  {
    hide Next;
    var part := run[i..j + 1];
    forall k | 0 <= k < |part| - 1 ensures Next(part[k], part[k + 1]) { assert Next(run[i + k], run[i + k + 1]); }
    assert IsRun(part) && part[0] == run[i] && part[|part| - 1] == run[j];
  }

  lemma StepReachable(s: State, t: State)
    requires Reachable(s) && Next(s, t)
    ensures Reachable(t)
  {
    hide Reachable, Next;
    ReachesNext(s, t);
    RunReachable(s, t);
  }

  lemma StepTo(s: State, step: Step) returns (t: State)
    requires Inv(s) && Enabled(s, step)
    ensures Typed(s) && t == Apply(s, step) && Inv(t) && Reaches(s, t)
  {
    assert Typed(s);
    t := Apply(s, step);
    hide Inv, Apply;
    assert Next(s, t);
    NextKeepsInv(s, t);
    ReachesNext(s, t);
  }

  /** What holds at one state of a run persists to the states after it. */
  lemma ReachesExtends(s: State, t: State)
    requires Reaches(s, t)
    ensures Extends(s, t)
  {
    var run :| IsRun(run) && run[0] == s && run[|run| - 1] == t;
    RunExtends(run);
  }

  // ----- Moments of a run

  /** Only a scan dispatches, and only the event under its iterator. */
  lemma ScanDispatches(s: State, q: QueueId, e: EventId)
    requires Typed(s) && Enabled(s, Scan(q)) && e < |s.events|
    requires !InDispatched(s, e) && InDispatched(ApplyScan(s, q), e)
    ensures s.events[e].status == Queued && s.events[e].waits == [] && !s.events[e].Done()
  {
    var qu := s.queues[q];
    ScanStep(s, q);
    if qu.section.index < |qu.list| { TakesExactly(qu, s.events[qu.list[qu.section.index]]); }
    hide Typed, ApplyScan, ScanIteration, Takes;
  }

  lemma OthersKeepDispatched(s: State, step: Step)
    requires Typed(s) && Enabled(s, step) && !step.Scan?
    ensures var t := Apply(s, step);
      |t.queues| == |s.queues| && forall q :: 0 <= q < |s.queues| ==> t.queues[q].dispatched == s.queues[q].dispatched
  {
    if step.Notify? {
      NotifyKeepsDispatched(s, step.event);
      hide Typed, ApplyNotify;
    } else if step.Append? || step.EndComplete? {
      assert EventTyped(s.events[step.event], |s.events|, |s.queues|);
      hide Typed, EventTyped;
    } else if step.Clean? || step.BeginPush? {
      SectionsKeepDispatched(s, step);
      hide Typed, EnterPush, CleanIteration;
    } else {
      hide Typed;
    }
  }

  lemma NotifyKeepsDispatched(s: State, e: EventId)
    requires Typed(s) && Enabled(s, Notify(e))
    ensures var t := ApplyNotify(s, e);
      |t.queues| == |s.queues| && forall q :: 0 <= q < |s.queues| ==> t.queues[q].dispatched == s.queues[q].dispatched
  {
    assert EventTyped(s.events[Dependent(s, e)], |s.events|, |s.queues|);
    hide Typed, NotifyEvents;
  }

  lemma SectionsKeepDispatched(s: State, step: Step)
    requires Typed(s) && Enabled(s, step) && (step.Clean? || step.BeginPush?)
    ensures match step
      case Clean(q) => CleanIteration(s.queues[q], s.events).dispatched == s.queues[q].dispatched
      case BeginPush(q, p, enough) => EnterPush(s.queues[q], p, enough).dispatched == s.queues[q].dispatched
      case _ => true
  {
    if step.Clean? { assert QueueTyped(s.queues[step.queue], |s.events|); }
    hide Typed;
  }

  lemma OthersDispatchNothing(s: State, step: Step, e: EventId)
    requires Typed(s) && Enabled(s, step) && !step.Scan? && e < |s.events|
    ensures InDispatched(Apply(s, step), e) ==> InDispatched(s, e)
  {
    OthersKeepDispatched(s, step);
    NextExtends(s, Apply(s, step));
    assert Persists(s.events[e], Apply(s, step).events[e]);
    hide Apply, Enabled, Typed;
  }

  /** The step that submits an event, or takes it off the list as instantaneous, finds its whole
      wait list complete. */
  lemma DispatchMoment(s: State, t: State, e: EventId)
    requires Reachable(s) && Next(s, t) && e < |s.events| && !InDispatched(s, e) && InDispatched(t, e)
    ensures s.events[e].waits == []
    ensures forall x :: x in s.events[e].waitList ==> x < |s.events| && s.events[x].Done()
  {
    var step :| Enabled(s, step) && t == Apply(s, step);
    assert step.Scan? by { if !step.Scan? { OthersDispatchNothing(s, step, e); } }
    ScanDispatches(s, step.queue, e);
    ReachableInv(s);
    NextKeepsInv(s, t);
    NextExtends(s, t);
    hide Next, Apply;
    assert WaitOk(s.events, e) && Persists(s.events[e], t.events[e]);
    DispatchedMine(t, e);
    DispatchKeepsStage(s, step.queue, e);
    assert Treated(s.events[e]) == s.events[e].waitList;
  }

  lemma DispatchKeepsStage(s: State, q: QueueId, e: EventId)
    requires Typed(s) && Enabled(s, Scan(q)) && e < |s.events|
    ensures |ApplyScan(s, q).events| == |s.events| && ApplyScan(s, q).events[e].stage == s.events[e].stage
  {
    assert QueueTyped(s.queues[q], |s.events|);
  }

  // ----- Dispatched once

  /** The iteration hands `event` to the device, or takes it off the list although it is not complete. */
  predicate Takes(qu: Queue, event: Event)
    requires qu.section.Pushing? && qu.section.index < |qu.list|
  {
    var (qu', submit) := ScanIteration(qu, event);
    submit || (!event.Done() && |qu'.list| < |qu.list|)
  }

  /** A scan iteration of queue `q` takes `e`. */
  ghost predicate TakesAt(s: State, q: QueueId, e: EventId)
    requires Typed(s) && Enabled(s, Scan(q)) && e < |s.events|
  {
    var qu := s.queues[q];
    qu.section.index < |qu.list| && qu.list[qu.section.index] == e && Takes(qu, s.events[e])
  }

  /** The step from `s` to `t` takes `e`. */
  ghost predicate Dispatches(s: State, t: State, e: EventId) {
    && Typed(s) && e < |s.events|
    && exists q: QueueId :: Enabled(s, Scan(q)) && t == ApplyScan(s, q) && TakesAt(s, q, e)
  }

  lemma TakesExactly(qu: Queue, event: Event)
    requires qu.section.Pushing? && qu.section.index < |qu.list|
    ensures var d := ScanIteration(qu, event).0.dispatched;
      d == if Takes(qu, event) then qu.dispatched + {qu.list[qu.section.index]} else qu.dispatched
    ensures Takes(qu, event) ==> event.status == Queued && event.waits == []
  {
  }

  lemma DispatchingScan(s: State, q: QueueId, e: EventId)
    requires Inv(s) && Typed(s) && Enabled(s, Scan(q)) && e < |s.events|
    ensures !InDispatched(s, e) && InDispatched(ApplyScan(s, q), e) <==> TakesAt(s, q, e)
  {
    ScanStep(s, q);
    var qu, t := s.queues[q], ApplyScan(s, q);
    hide ApplyScan;
    assert QueueOk(q, qu, s.events);
    if qu.section.index < |qu.list| {
      var x := qu.list[qu.section.index];
      TakesExactly(qu, s.events[x]);
      Listed(q, qu, s.events, qu.section.index);
    }
    hide Inv, Typed, QueueOk, Takes, ScanIteration;
    assert |t.events| == |s.events| && t.events[e].parent == s.events[e].parent && |t.queues| == |s.queues|;
  }

  lemma NewlyDispatched(s: State, t: State, e: EventId)
    requires Inv(s) && Next(s, t) && e < |s.events| && !InDispatched(s, e) && InDispatched(t, e)
    ensures Dispatches(s, t, e)
  {
    hide Apply, InDispatched, TakesAt, Inv, ApplyScan;
    var step :| Enabled(s, step) && t == Apply(s, step);
    hide Enabled, Next, Typed;
    assert step.Scan? by { if !step.Scan? { OthersDispatchNothing(s, step, e); } }
    ApplyIsScan(s, step.queue);
    DispatchingScan(s, step.queue, e);
  }

  lemma ApplyIsScan(s: State, q: QueueId)
    requires Typed(s) && Enabled(s, Scan(q))
    ensures Apply(s, Scan(q)) == ApplyScan(s, q)
  {
  }

  /** The history of dispatches grows by `e` exactly in the steps that take `e`. */
  lemma DispatchesExactly(s: State, t: State, e: EventId)
    requires Reachable(s) && Next(s, t) && e < |s.events|
    ensures Dispatches(s, t, e) <==> !InDispatched(s, e) && InDispatched(t, e)
  {
    hide Reachable, Inv, InDispatched, TakesAt, Next, Typed, ApplyScan, Enabled;
    ReachableInv(s);
    if Dispatches(s, t, e) {
      var q: QueueId :| Enabled(s, Scan(q)) && t == ApplyScan(s, q) && TakesAt(s, q, e);
      DispatchingScan(s, q, e);
    } else if !InDispatched(s, e) && InDispatched(t, e) {
      NewlyDispatched(s, t, e);
    }
  }

  /** Along any run at most one step submits an event or takes it off the list as instantaneous. */
  lemma DispatchedOnce(run: seq<State>, i: nat, j: nat, e: EventId)
    requires IsRun(run) && Reachable(run[0]) && i < j < |run| - 1
    requires e < |run[i].events| && Dispatches(run[i], run[i + 1], e)
    ensures !Dispatches(run[j], run[j + 1], e)
  {
    hide Reachable, Dispatches, Next, Reaches;
    RunReaches(run, 0, i);
    RunReaches(run, 0, j);
    RunReaches(run, i + 1, j);
    RunReachable(run[0], run[i]);
    RunReachable(run[0], run[j]);
    assert Next(run[i], run[i + 1]) && Next(run[j], run[j + 1]);
    DispatchesExactly(run[i], run[i + 1], e);
    ReachesExtends(run[i + 1], run[j]);
    assert Persists(run[i + 1].events[e], run[j].events[e]);
    DispatchesExactly(run[j], run[j + 1], e);
  }

  /** A marker built from a snapshot of `list` that leaves out only completed events is dispatched only
      after everything in `list` is complete. */
  lemma MarkerSafety(list: seq<EventId>, s: State, q: QueueId, snapshot: seq<EventId>, s': State, t: State)
    requires Reachable(s) && q < |s.queues| && Enabled(s, BeginEvent(q, Marker, snapshot))
    requires forall e :: e in list ==> e in snapshot || (e < |s.events| && s.events[e].Done())
    requires s' == s.(events := s.events + [NewEvent(Marker, Some(q), snapshot)])
    requires Reaches(s', t) && InDispatched(t, |s.events|)
    ensures forall e :: e in list ==> e < |t.events| && t.events[e].Done()
  {
    var m := |s.events|;
    var run :| IsRun(run) && run[0] == s' && run[|run| - 1] == t;
    RunExtends(run);
    assert Persists(s'.events[m], t.events[m]);
    ReachableInv(s);
    assert s' == Apply(s, BeginEvent(q, Marker, snapshot));
    StepReachable(s, s');
    RunReachable(s', t);
    DependencySafety(t, m);
    hide Inv, Next;
    forall e | e in list && e < |s.events| && s.events[e].Done() ensures e < |t.events| && t.events[e].Done() {
      assert s'.events[e] == s.events[e] && Persists(s'.events[e], t.events[e]);
    }
  }
}
