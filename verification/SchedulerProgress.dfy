/**
 Termination and completion: without further calls of the host, every run stops, and where it
 stops all queued events are complete.
 */
module SchedulerProgress {
  import opened Wrappers
  import opened SchedulerModel
  import opened SchedulerInvariant
  import opened SchedulerSafety
  import opened SchedulerTheorems
  import opened SchedulerRuns

  // ----- Measure

  function Sum<T>(xs: seq<T>, f: T -> nat): nat {
    if xs == [] then 0 else f(xs[0]) + Sum(xs[1..], f)
  }

  lemma {:induction false} SumUpdate<T>(xs: seq<T>, f: T -> nat, i: nat, x: T)
    requires i < |xs|
    ensures Sum(xs[i := x], f) == Sum(xs, f) - f(xs[i]) + f(x)
  {
    if i == 0 {
      assert xs[0 := x][1..] == xs[1..];
    } else {
      assert xs[i := x][1..] == xs[1..][i - 1 := x];
      SumUpdate(xs[1..], f, i - 1, x);
    }
  }

  function StatusRank(e: Event): nat {
    match e.status case Queued => 3 case Submitted => 2 case Running => 1 case Complete => 0
  }

  function LoopRank(e: Event): nat {
    if e.progress.Notifying? && e.progress.next <= |e.dependents| then |e.dependents| - e.progress.next + 1 else 0
  }

  function ListRank(q: Queue): nat { |q.list| }

  function PushRank(q: Queue): nat { |q.pushes| }

  function SectionRank(q: Queue): nat {
    if !q.section.Free? && q.section.index <= |q.list| then |q.list| - q.section.index + 1 else 0
  }

  function WokenRank(q: Queue): nat { q.woken }

  /** Work left: statuses to pass, listed events, notifications, pending pushes, entries to scan,
      woken threads. */
  datatype Work = Work(statuses: nat, listed: nat, loops: nat, pushes: nat, sections: nat, woken: nat)

  function WorkOf(s: State): Work {
    Work(Sum(s.events, StatusRank), Sum(s.queues, ListRank), Sum(s.events, LoopRank),
         Sum(s.queues, PushRank), Sum(s.queues, SectionRank), Sum(s.queues, WokenRank))
  }

  /** Lexicographic order. */
  predicate Less(a: Work, b: Work) {
    if a.statuses != b.statuses then a.statuses < b.statuses
    else if a.listed != b.listed then a.listed < b.listed
    else if a.loops != b.loops then a.loops < b.loops
    else if a.pushes != b.pushes then a.pushes < b.pushes
    else if a.sections != b.sections then a.sections < b.sections
    else a.woken < b.woken
  }

  lemma EventWork(s: State, e: EventId, v: Event)
    requires e < |s.events|
    ensures var a, b := WorkOf(s), WorkOf(s.(events := s.events[e := v]));
      && b == a.(statuses := b.statuses, loops := b.loops)
      && b.statuses == a.statuses - StatusRank(s.events[e]) + StatusRank(v)
      && b.loops == a.loops - LoopRank(s.events[e]) + LoopRank(v)
  {
    SumUpdate(s.events, StatusRank, e, v);
    SumUpdate(s.events, LoopRank, e, v);
  }

  lemma QueueWork(s: State, q: QueueId, v: Queue)
    requires q < |s.queues|
    ensures var a, b := WorkOf(s), WorkOf(s.(queues := s.queues[q := v]));
      && b == a.(listed := b.listed, pushes := b.pushes, sections := b.sections, woken := b.woken)
      && b.listed == a.listed - ListRank(s.queues[q]) + ListRank(v)
      && b.pushes == a.pushes - PushRank(s.queues[q]) + PushRank(v)
      && b.sections == a.sections - SectionRank(s.queues[q]) + SectionRank(v)
      && b.woken == a.woken - WokenRank(s.queues[q]) + WokenRank(v)
  {
    SumUpdate(s.queues, ListRank, q, v);
    SumUpdate(s.queues, PushRank, q, v);
    SumUpdate(s.queues, SectionRank, q, v);
    SumUpdate(s.queues, WokenRank, q, v);
  }

  /** An iteration of the scan submits, removes, moves on or ends. */
  lemma ScanIterationWork(q: Queue, event: Event)
    requires q.section.Pushing? && q.section.index < |q.list|
    ensures var (q', submit) := ScanIteration(q, event);
      && q'.pushes == q.pushes
      && (submit ==> event.status == Queued && q'.list == q.list)
      && (!submit ==> |q'.list| < |q.list| || (q'.list == q.list && SectionRank(q') < SectionRank(q)))
  {
  }

  lemma ScanWork(s: State, q: QueueId)
    requires Typed(s) && Enabled(s, Scan(q))
    ensures Less(WorkOf(ApplyScan(s, q)), WorkOf(s))
  {
    var qu := s.queues[q];
    assert QueueTyped(qu, |s.events|);
    if qu.section.index == |qu.list| {
      QueueWork(s, q, EndScan(qu));
    } else {
      var e := qu.list[qu.section.index];
      ScanIterationWork(qu, s.events[e]);
      var (qu', submit) := ScanIteration(qu, s.events[e]);
      QueueWork(s, q, qu');
      if submit {
        EventWork(s.(queues := s.queues[q := qu']), e, s.events[e].(status := Submitted));
      }
    }
  }

  lemma CleanIterationWork(q: Queue, ev: seq<Event>)
    requires QueueTyped(q, |ev|) && q.section.Cleaning?
    ensures var q' := CleanIteration(q, ev);
      q'.pushes == q.pushes && (|q'.list| < |q.list| || (q'.list == q.list && SectionRank(q') < SectionRank(q)))
  {
  }

  lemma CleanWork(s: State, q: QueueId)
    requires Typed(s) && Enabled(s, Clean(q))
    ensures Less(WorkOf(Apply(s, Clean(q))), WorkOf(s))
  {
    assert QueueTyped(s.queues[q], |s.events|);
    CleanIterationWork(s.queues[q], s.events);
    hide WorkOf, Typed, CleanIteration, SectionRank;
    QueueWork(s, q, CleanIteration(s.queues[q], s.events));
  }

  lemma BeginPushWork(s: State, q: QueueId, p: Push, enough: bool)
    requires Typed(s) && Enabled(s, BeginPush(q, p, enough))
    ensures Less(WorkOf(Apply(s, BeginPush(q, p, enough))), WorkOf(s))
  {
    QueueWork(s, q, EnterPush(s.queues[q], p, enough));
    assert |s.queues[q].pushes - multiset{p}| == |s.queues[q].pushes| - 1;
  }

  /** Pending pushes weigh less than anything an event has left to do. */
  lemma AddPushWork(s: State, q: QueueId, p: Push)
    requires q < |s.queues|
    ensures WorkOf(AddPush(s, q, p)) == WorkOf(s).(pushes := WorkOf(AddPush(s, q, p)).pushes)
  {
    QueueWork(s, q, s.queues[q].(pushes := s.queues[q].pushes + multiset{p}));
  }

  lemma NotifyEventsWork(s: State, x: EventId)
    requires Enabled(s, Notify(x))
    ensures Less(WorkOf(s.(events := NotifyEvents(s, x))), WorkOf(s))
    ensures WorkOf(s.(events := NotifyEvents(s, x))).loops < WorkOf(s).loops
  {
    hide WorkOf;
    var d := Dependent(s, x);
    var v := s.events[d].(waits := Without(s.events[d].waits, x));
    var s1 := s.(events := s.events[d := v]);
    EventWork(s, d, v);
    EventWork(s1, x, NotifyEvents(s, x)[x]);
  }

  lemma NotifyWork(s: State, x: EventId)
    requires Typed(s) && Enabled(s, Notify(x))
    ensures Less(WorkOf(ApplyNotify(s, x)), WorkOf(s))
  {
    var d, s' := Dependent(s, x), s.(events := NotifyEvents(s, x));
    assert EventTyped(s.events[d], |s.events|, |s.queues|);
    NotifyEventsWork(s, x);
    hide WorkOf, NotifyEvents;
    if Wakes(s, x) {
      AddPushWork(s', s.events[d].parent.value, Push(Some(d), if WakesOwn(s, x) then Some(x) else None));
    }
  }

  lemma EndCompleteWork(s: State, x: EventId)
    requires Typed(s) && Enabled(s, EndComplete(x))
    ensures Less(WorkOf(Apply(s, EndComplete(x))), WorkOf(s))
  {
    var v := s.events[x].(progress := Idle);
    var s1 := s.(events := s.events[x := v]);
    EventWork(s, x, v);
    assert EventTyped(s.events[x], |s.events|, |s.queues|);
    hide Typed, WorkOf;
    if s.events[x].parent.Some? && !s.events[x].progress.pushed {
      AddPushWork(s1, s.events[x].parent.value, Push(None, Some(x)));
    }
  }

  /** Every internal step leaves less work. */
  lemma InternalDecreases(s: State, step: Step)
    requires Typed(s) && Enabled(s, step) && Internal(step)
    ensures Less(WorkOf(Apply(s, step)), WorkOf(s))
  {
    hide WorkOf;
    match step
    case Scan(q) => ScanWork(s, q);
    case Clean(q) => CleanWork(s, q);
    case BeginPush(q, p, enough) => BeginPushWork(s, q, p, enough);
    case Start(e) => EventWork(s, e, s.events[e].(status := Running));
    case BeginComplete(e) => EventWork(s, e, s.events[e].(status := Complete, progress := Notifying(0, false)));
    case Notify(e) => NotifyWork(s, e);
    case EndComplete(e) => EndCompleteWork(s, e);
    case Recheck(q) => QueueWork(s, q, Rechecked(s.queues[q]));
  }

  // ----- Runs without the host

  ghost predicate InternalNext(s: State, t: State) {
    Typed(s) && exists step :: Internal(step) && Enabled(s, step) && t == Apply(s, step)
  }

  lemma InternalNextDecreases(s: State, t: State)
    requires InternalNext(s, t)
    ensures Less(WorkOf(t), WorkOf(s))
  {
    var step :| Internal(step) && Enabled(s, step) && t == Apply(s, step);
    hide WorkOf, Apply;
    InternalDecreases(s, step);
  }

  lemma {:induction false} Descend(run: nat -> State, i: nat)
    requires forall k: nat :: InternalNext(run(k), run(k + 1))
    ensures false
    decreases WorkOf(run(i)).statuses, WorkOf(run(i)).listed, WorkOf(run(i)).loops, WorkOf(run(i)).pushes,
              WorkOf(run(i)).sections, WorkOf(run(i)).woken
  {
    hide InternalNext, WorkOf;
    assert InternalNext(run(i), run(i + 1));
    InternalNextDecreases(run(i), run(i + 1));
    Descend(run, i + 1);
  }

  /** No run of internal steps is infinite: scans, completions and their mutual recursion stop. */
  lemma EveryRunStops(run: nat -> State)
    ensures exists k: nat :: !InternalNext(run(k), run(k + 1))
  {
    if forall k: nat :: InternalNext(run(k), run(k + 1)) {
      Descend(run, 0);
    }
  }

  ghost predicate Resting(s: State) {
    forall step :: Internal(step) ==> !Enabled(s, step)
  }

  /** The host has left all constructors and completed all user events. */
  predicate HostDone(s: State) {
    forall e | 0 <= e < |s.events| ::
      !s.events[e].stage.Building? && (s.events[e].kind == User ==> s.events[e].Done())
  }

  lemma RestingIsQuiescent(s: State)
    requires Inv(s) && Resting(s) && HostDone(s)
    ensures Quiescent(s)
  {
    hide QueueOk, WaitOk;
    forall q | 0 <= q < |s.queues| ensures s.queues[q].section.Free? && s.queues[q].pushes == multiset{} {
      assert !Enabled(s, Scan(q)) && !Enabled(s, Clean(q));
      forall p ensures p !in s.queues[q].pushes { assert !Enabled(s, BeginPush(q, p, false)); }
    }
    forall e | 0 <= e < |s.events| ensures s.events[e].progress.Idle? && (InDispatched(s, e) ==> s.events[e].Done()) {
      assert EventTyped(s.events[e], |s.events|, |s.queues|);
      assert !Enabled(s, Notify(e)) && !Enabled(s, EndComplete(e)) && !Enabled(s, BeginComplete(e));
    }
  }

  lemma RestingAwaitsNobody(s: State)
    requires Resting(s) && Quiescent(s)
    ensures forall q :: 0 <= q < |s.queues| ==> s.queues[q].woken == 0
  {
    forall q | 0 <= q < |s.queues| ensures s.queues[q].woken == 0 { assert !Enabled(s, Recheck(q)); }
  }

  /** Where a run can go no further, every queued event is complete, every queue is empty and no thread
      is left in `finish`. */
  lemma RestIsComplete(s: State)
    requires Reachable(s) && Resting(s) && HostDone(s)
    ensures forall e :: 0 <= e < |s.events| && s.events[e].stage.Enqueued? ==> s.events[e].Done()
    ensures forall q :: 0 <= q < |s.queues| ==> s.queues[q].list == [] && s.queues[q].sleepers == s.queues[q].woken == 0
  {
    hide Inv, Reachable, Resting, Quiescent;
    ReachableInv(s);
    RestingIsQuiescent(s);
    NoStarvation(s);
    RestingAwaitsNobody(s);
  }

  // ----- Maximal runs

  lemma InternalKeepsHostDone(s: State, t: State)
    requires InternalNext(s, t) && HostDone(s)
    ensures HostDone(t) && |t.events| == |s.events|
  {
    var step :| Internal(step) && Enabled(s, step) && t == Apply(s, step);
    if step.Scan? {
      ScanHostDone(s, step.queue);
      hide ApplyScan, Typed;
    } else if step.Notify? {
      NotifyHostDone(s, step.event);
      hide Typed, ApplyNotify;
    } else {
      hide Typed;
    }
  }

  lemma NotifyHostDone(s: State, e: EventId)
    requires Typed(s) && Enabled(s, Notify(e)) && HostDone(s)
    ensures HostDone(ApplyNotify(s, e)) && |ApplyNotify(s, e).events| == |s.events|
  {
    assert EventTyped(s.events[Dependent(s, e)], |s.events|, |s.queues|);
    hide Typed, EventTyped, Without;
  }

  lemma ScanHostDone(s: State, q: QueueId)
    requires Typed(s) && Enabled(s, Scan(q)) && HostDone(s)
    ensures HostDone(ApplyScan(s, q)) && |ApplyScan(s, q).events| == |s.events|
  {
    var qu := s.queues[q];
    assert QueueTyped(qu, |s.events|);
    if qu.section.index < |qu.list| && ScanIteration(qu, s.events[qu.list[qu.section.index]]).1 {
      SubmitsCommand(qu, s.events[qu.list[qu.section.index]]);
    }
  }

  /** Once the host is done, every maximal run of the runtime and its devices completes all events. */
  lemma {:induction false} WorkCompletes(run: seq<State>)
    requires run != [] && Reachable(run[0]) && HostDone(run[0]) && Resting(run[|run| - 1])
    requires forall i :: 0 <= i < |run| - 1 ==> InternalNext(run[i], run[i + 1])
    ensures var t := run[|run| - 1];
      && (forall e :: 0 <= e < |t.events| && t.events[e].stage.Enqueued? ==> t.events[e].Done())
      && (forall q :: 0 <= q < |t.queues| ==> t.queues[q].list == [] && t.queues[q].sleepers == t.queues[q].woken == 0)
    decreases |run|
  {
    hide InternalNext, Resting, HostDone, Reachable;
    if |run| == 1 {
      RestIsComplete(run[0]);
    } else {
      assert InternalNext(run[0], run[1]);
      InternalKeepsHostDone(run[0], run[1]);
      InternalIsNext(run[0], run[1]);
      StepReachable(run[0], run[1]);
      WorkCompletes(run[1..]);
    }
  }

  lemma InternalIsNext(s: State, t: State)
    requires InternalNext(s, t)
    ensures Next(s, t)
  {
  }
}
