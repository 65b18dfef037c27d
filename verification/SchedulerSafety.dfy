/** Every step keeps the invariant, so every reachable state has it. */
module SchedulerSafety {
  import opened Wrappers
  import opened SchedulerModel
  import opened SchedulerInvariant
  import opened SchedulerBuild
  import opened SchedulerScan
  import opened SchedulerComplete

  // ----- Scan steps of the whole system

  /** A scan step, spelled out. */
  lemma ScanStep(s: State, q: QueueId)
    requires Typed(s) && Enabled(s, Scan(q))
    ensures var qu, t := s.queues[q], ApplyScan(s, q);
      && QueueTyped(qu, |s.events|)
      && (qu.section.index == |qu.list| ==> t == State(s.events, s.queues[q := EndScan(qu)], s.clock))
      && (qu.section.index < |qu.list| ==>
            var e := qu.list[qu.section.index];
            var r := ScanIteration(qu, s.events[e]);
            t == State(AfterScan(s.events, e, r.1), s.queues[q := r.0], s.clock))
  {
  }

  lemma SubmitWaits(ev: seq<Event>, e: EventId)
    requires WaitsOk(ev) && e < |ev| && ev[e].status == Queued
    ensures WaitsOk(ev[e := ev[e].(status := Submitted)])
  {
    var ev' := ev[e := ev[e].(status := Submitted)];
    assert forall x, f: EventId :: 0 <= x < |ev| && Owes(ev[x], f) ==> Owes(ev'[x], f) by {
      forall x, f: EventId | 0 <= x < |ev| && Owes(ev[x], f) ensures Owes(ev'[x], f) {
        var j :| 0 <= j < |ev[x].dependents| && ev[x].dependents[j] == f && NotReached(ev[x], j);
        assert ev'[x].dependents[j] == f && NotReached(ev'[x], j);
      }
    }
    forall f | 0 <= f < |ev| ensures WaitOk(ev', f) { FrameWait(ev, ev', f); }
  }

  /** Only a queued command is submitted. */
  lemma SubmitsCommand(qu: Queue, event: Event)
    requires qu.section.Pushing? && qu.section.index < |qu.list| && ScanIteration(qu, event).1
    ensures event.kind == Command && event.status == Queued
  {
  }

  lemma WaitsNamed(s: State, e: EventId)
    requires Typed(s) && e < |s.events|
    ensures s.events[e].waits != [] ==> s.events[e].waitList != []
  {
    assert EventTyped(s.events[e], |s.events|, |s.queues|);
    if s.events[e].waits != [] { assert s.events[e].waits[0] in s.events[e].waits; }
  }

  lemma SubmissionKeeps(s: State, q: QueueId, qu': Queue, e: EventId)
    requires Inv(s) && q < |s.queues| && Mine(q, s.events, e)
    requires s.events[e].kind == Command && s.events[e].status == Queued
    requires QueueOk(q, qu', s.events[e := s.events[e].(status := Submitted)])
    ensures Inv(State(s.events[e := s.events[e].(status := Submitted)], s.queues[q := qu'], s.clock))
  {
    var ev := s.events;
    var v := ev[e].(status := Submitted);
    SubmitWaits(ev, e);
    hide QueueOk, WaitOk;
    ReplaceBoth(s, q, qu', e, v, s.clock);
    assert EventTyped(ev[e], |ev|, |s.queues|) && EventOk(ev[e], s.clock);
    assert EventTyped(v, |ev|, |s.queues|) && EventOk(v, s.clock);
    hide EventTyped, EventOk;
    TypedAt(s, ev[e := v], e);
    QueuesTyped(State(ev[e := v], s.queues[q := qu'], s.clock));
  }

  lemma ScanKeeps(s: State, q: QueueId)
    requires Inv(s) && q < |s.queues| && s.queues[q].section.Pushing? && s.queues[q].section.index < |s.queues[q].list|
    requires s.queues[q].list[s.queues[q].section.index] < |s.events|
    ensures var e := s.queues[q].list[s.queues[q].section.index];
      var r := ScanIteration(s.queues[q], s.events[e]);
      Inv(State(AfterScan(s.events, e, r.1), s.queues[q := r.0], s.clock))
  {
    var qu, ev := s.queues[q], s.events;
    var e := qu.list[qu.section.index];
    var (qu', submit) := ScanIteration(qu, ev[e]);
    WaitsNamed(s, e);
    IterationKeeps(q, qu, ev);
    ListedParent(q, qu, ev, qu.section.index);
    if submit {
      SubmitsCommand(qu, ev[e]);
      hide ScanIteration, QueueOk, Inv;
      SubmissionKeeps(s, q, qu', e);
    } else {
      hide ScanIteration, QueueOk;
      ReplaceQueue(s, q, qu');
    }
  }

  lemma ListedParent(q: QueueId, qu: Queue, ev: seq<Event>, i: nat)
    requires QueueOk(q, qu, ev) && i < |qu.list|
    ensures Mine(q, ev, qu.list[i])
  {
    Listed(q, qu, ev, i);
  }

  lemma ScanEndKeeps(s: State, q: QueueId)
    requires Inv(s) && q < |s.queues| && s.queues[q].section.Pushing? && s.queues[q].section.index == |s.queues[q].list|
    ensures Inv(s.(queues := s.queues[q := EndScan(s.queues[q])]))
  {
    assert QueueOk(q, s.queues[q], s.events);
    EndScanKeeps(q, s.queues[q], s.events);
    hide QueueOk;
    ReplaceQueue(s, q, EndScan(s.queues[q]));
  }

  lemma ScanStepKeeps(s: State, q: QueueId)
    requires Inv(s) && Enabled(s, Scan(q))
    ensures Inv(ApplyScan(s, q))
  {
    assert Typed(s);
    hide Inv;
    if s.queues[q].section.index == |s.queues[q].list| {
      ScanEndKeeps(s, q);
    } else {
      assert QueueTyped(s.queues[q], |s.events|);
      ScanKeeps(s, q);
    }
  }

  lemma QueueStepKeeps(s: State, step: Step)
    requires Inv(s) && Enabled(s, step)
    requires step.BeginPush? || step.Clean? || step.BeginClean? || step.Recheck?
    ensures Inv(Apply(s, step))
  {
    var q := step.queue;
    var qu := s.queues[q];
    assert QueueOk(q, qu, s.events) && QueueTyped(qu, |s.events|);
    hide QueueOk;
    match step
    case BeginPush(_, p, enough) =>
      EnterKeeps(q, qu, s.events, p, enough);
      ReplaceQueue(s, q, EnterPush(qu, p, enough));
    case Clean(_) =>
      CleanKeeps(q, qu, s.events);
      ReplaceQueue(s, q, CleanIteration(qu, s.events));
    case BeginClean(_) =>
      BeginCleanKeeps(q, qu, s.events);
      ReplaceQueue(s, q, qu.(section := Cleaning(0)));
    case Recheck(_) =>
      RecheckQueue(q, qu, s.events);
      ReplaceQueue(s, q, Rechecked(qu));
  }

  lemma BuildStepKeeps(s: State, step: Step)
    requires Inv(s) && Enabled(s, step)
    requires step.CreateUser? || step.BeginEvent? || step.LinkWait? || step.RecordWait? || step.EndEvent?
    ensures Inv(Apply(s, step))
  {
    hide Inv;
    match step
    case CreateUser => CreateUserKeeps(s);
    case BeginEvent(q, kind, waitList) => BeginEventKeeps(s, q, kind, waitList);
    case LinkWait(e) => LinkKeeps(s, e);
    case RecordWait(e) => RecordKeeps(s, e);
    case EndEvent(e) => EndKeeps(s, e);
  }

  lemma HostStepKeeps(s: State, step: Step)
    requires Inv(s) && Enabled(s, step)
    requires step.Append? || step.Flush? || step.Sleep?
    ensures Inv(Apply(s, step))
  {
    hide Inv;
    match step
    case Append(e) => AppendKeeps(s, e, s.events[e].parent.value);
    case Flush(q) => AddPushKeeps(s, q, Push(None, None));
    case Sleep(q) => SleepKeeps(s, q);
  }

  lemma EventStepKeeps(s: State, step: Step)
    requires Inv(s) && Enabled(s, step)
    requires step.Start? || step.BeginComplete? || step.Notify? || step.EndComplete?
    ensures Inv(Apply(s, step))
  {
    match step
    case Start(e) =>
      StartedDispatched(s, e);
      hide Inv;
      MoveKeeps(s, e, s.events[e].(status := Running));
    case BeginComplete(e) =>
      hide Inv;
      MoveKeeps(s, e, s.events[e].(status := Complete, progress := Notifying(0, false)));
    case Notify(e) =>
      hide Inv;
      NotifyKeeps(s, e);
    case EndComplete(e) =>
      hide Inv;
      EndCompleteKeeps(s, e);
  }

  /** An event in flight was dispatched by its queue. */
  lemma StartedDispatched(s: State, e: EventId)
    requires Inv(s) && e < |s.events| && s.events[e].kind != User && s.events[e].status != Queued
    ensures InDispatched(s, e)
  {
    assert EventOk(s.events[e], s.clock) && EventTyped(s.events[e], |s.events|, |s.queues|);
    var q := s.events[e].parent.value;
    assert QueueOk(q, s.queues[q], s.events);
    if e !in s.queues[q].list { assert Settled(s.queues[q], s.events, e); }
  }

  lemma NextKeepsInv(s: State, t: State)
    requires Inv(s) && Next(s, t)
    ensures Inv(t)
  {
    var step :| Enabled(s, step) && t == Apply(s, step);
    hide Inv;
    if step.Scan? {
      ScanStepKeeps(s, step.queue);
    } else if step.BeginPush? || step.Clean? || step.BeginClean? || step.Recheck? {
      QueueStepKeeps(s, step);
    } else if step.Append? || step.Flush? || step.Sleep? {
      HostStepKeeps(s, step);
    } else if step.Start? || step.BeginComplete? || step.Notify? || step.EndComplete? {
      EventStepKeeps(s, step);
    } else {
      BuildStepKeeps(s, step);
    }
  }

  lemma InitInv(s: State)
    requires Init(s)
    ensures Inv(s)
  {
    forall q | 0 <= q < |s.queues| ensures QueueOk(q, s.queues[q], s.events) {
      assert Outstanding(s.queues[q], s.events) == {};
    }
  }

  lemma {:induction false} RunInv(run: seq<State>)
    requires IsRun(run) && Inv(run[0])
    ensures forall i :: 0 <= i < |run| ==> Inv(run[i])
  {
    hide Inv, Next;
    if |run| > 1 {
      var prefix := run[..|run| - 1];
      RunInv(prefix);
      assert Inv(prefix[|run| - 2]) && Next(run[|run| - 2], run[|run| - 1]);
      NextKeepsInv(run[|run| - 2], run[|run| - 1]);
      assert forall i :: 0 <= i < |run| - 1 ==> run[i] == prefix[i];
    }
  }

  /** Every reachable state satisfies the invariant. */
  lemma ReachableInv(s: State)
    requires Reachable(s)
    ensures Inv(s)
  {
    var s0 :| Init(s0) && Reaches(s0, s);
    var run :| IsRun(run) && run[0] == s0 && run[|run| - 1] == s;
    InitInv(s0);
    RunInv(run);
  }
}
