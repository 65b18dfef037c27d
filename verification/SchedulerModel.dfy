/**
 The command-queue and event scheduler as a transition system.

 Host threads build events, append them to queues and flush; device workers start and complete
 them; a completion walks the dependents of its event.  Every critical section of the C++ code is
 one step, except the scans of `pushEventsOnDevice` and `cleanEvents`, of which every loop
 iteration is a step: events may change state while a scan holds the queue mutex.
 */
module SchedulerModel {
  import opened Wrappers

  type EventId = nat
  type QueueId = nat

  /** `Command` stands for every event type that is executed by a device. */
  datatype Kind = Command | Marker | Barrier | WaitForEvents | User

  datatype Status = Queued | Submitted | Running | Complete

  /** Life of an event up to its append.  While `Building`, the constructor holds the event mutex:
      `next` entries of the wait list are dealt with, and `linked` says that the event was added to
      the dependents of entry `next` but that this entry is not yet in the wait set.
      The ticket is the global time of the append. */
  datatype Stage = Building(next: nat, linked: bool) | Built | Enqueued(ticket: nat)

  /** The dependents loop of `Event::setStatus`: its index and `already_pushed`. */
  datatype Progress = Idle | Notifying(next: nat, pushed: bool)

  datatype Event = Event(
    kind: Kind,
    parent: Option<QueueId>,
    status: Status,
    waitList: seq<EventId>,   // the wait list the event was built with
    waits: seq<EventId>,      // p_wait_events
    dependents: seq<EventId>, // p_dependent_events
    stage: Stage,
    progress: Progress)
  {
    predicate Instantaneous() { kind != Command }

    predicate Done() { status == Complete }

    function Ticket(): nat { if stage.Enqueued? then stage.ticket else 0 }

    /** Events that the scan never passes: see `ScanEvent`. */
    predicate Fence() { kind == WaitForEvents || (kind == Barrier && waitList == []) }
  }

  /** A call of `pushEventsOnDevice` that has not yet taken the queue mutex.  `completed` names the
      event whose completion it reports (one_event_completed_on_device). */
  datatype Push = Push(ready: Option<EventId>, completed: Option<EventId>)

  /** Who holds the queue mutex across several steps. */
  datatype Section =
    | Free
    | Pushing(index: nat, first: bool, traversed: nat, ready: Option<EventId>)
    | Cleaning(index: nat)

  datatype Queue = Queue(
    outOfOrder: bool,
    list: seq<EventId>,       // p_events
    inQueue: int,             // p_num_events_in_queue
    onDevice: int,            // p_num_events_on_device
    completed: int,           // p_num_events_completed
    flushed: bool,            // p_flushed
    section: Section,
    pushes: multiset<Push>,
    sleepers: nat,            // threads waiting for p_event_list_cond in finish()
    woken: nat,               // threads in finish() that a broadcast woke and that test the queue again
    dispatched: set<EventId>, // history: events submitted, or removed as instantaneous
    accounted: set<EventId>)  // history: events whose completion was reported to the counters

  datatype State = State(events: seq<Event>, queues: seq<Queue>, clock: nat)

  const OOO_QUEUE_PUSH_EVENTS_THRESHOLD := 64
  const CLEAN_THRESHOLD := 16

  // ----- Well-typed states: every identifier and every index is in range

  ghost predicate EventTyped(e: Event, events: nat, queues: nat) {
    var owner := (e.kind == User <==> e.parent == None) && (e.parent.Some? ==> e.parent.value < queues);
    var ids := && (forall i :: 0 <= i < |e.waitList| ==> e.waitList[i] < events)
               && (forall x :: x in e.waits ==> x in e.waitList)
               && (forall i :: 0 <= i < |e.dependents| ==> e.dependents[i] < events);
    var indices := && (e.stage.Building? ==> e.stage.next <= |e.waitList|)
                   && (e.stage.Building? && e.stage.linked ==> e.stage.next < |e.waitList|)
                   && (e.progress.Notifying? ==> e.progress.next <= |e.dependents|);
    owner && ids && indices
  }

  ghost predicate QueueTyped(q: Queue, events: nat) {
    var ids := forall i :: 0 <= i < |q.list| ==> q.list[i] < events;
    var index := q.section.Pushing? || q.section.Cleaning? ==> q.section.index <= |q.list|;
    ids && index
  }

  ghost predicate Typed(s: State) {
    && (forall e :: 0 <= e < |s.events| ==> EventTyped(s.events[e], |s.events|, |s.queues|))
    && (forall q :: 0 <= q < |s.queues| ==> QueueTyped(s.queues[q], |s.events|))
  }

  // ----- Queue-local operations

  function RemoveAt(list: seq<EventId>, i: nat): seq<EventId>
    requires i < |list|
  {
    list[..i] + list[i + 1..]
  }

  function Without(list: seq<EventId>, x: EventId): seq<EventId> {
    if list == [] then []
    else if list[0] == x then Without(list[1..], x)
    else [list[0]] + Without(list[1..], x)
  }

  function Broadcast(q: Queue): Queue { q.(sleepers := 0, woken := q.woken + q.sleepers) }

  /** Leaving the scan of `pushEventsOnDevice` at its end or by `break`. */
  function EndScan(q: Queue): Queue
    requires q.section.Pushing?
  {
    var flushed := if q.section.ready.Some? && q.flushed then q.inQueue == 0 else q.flushed;
    var q' := q.(flushed := flushed, section := Free);
    if flushed then Broadcast(q') else q'
  }

  /** The push is no longer pending, and the completion it reports is counted. */
  function TakePush(q: Queue, p: Push): Queue {
    if p.completed.Some? then
      q.(pushes := q.pushes - multiset{p}, onDevice := q.onDevice - 1, completed := q.completed + 1,
         accounted := q.accounted + {p.completed.value})
    else q.(pushes := q.pushes - multiset{p})
  }

  /** Entering `pushEventsOnDevice`; `enough` is the answer of the device. */
  function EnterPush(q: Queue, p: Push, enough: bool): Queue {
    var q' := TakePush(q, p);
    if q'.outOfOrder && p.ready.None? && q'.onDevice > 2 && enough then q'
    else q'.(section := Pushing(0, true, 0, p.ready), flushed := true)
  }

  /** A completed event under the iterator leaves the list. */
  function DropCompleted(q: Queue, i: nat): Queue
    requires i < |q.list|
  {
    q.(list := RemoveAt(q.list, i), inQueue := q.inQueue - 1, completed := q.completed - 1)
  }

  /** An instantaneous event under the iterator leaves the list and the mutex is released. */
  function DispatchInstantaneous(q: Queue, i: nat): Queue
    requires i < |q.list|
  {
    var q' := q.(list := RemoveAt(q.list, i), inQueue := q.inQueue - 1, flushed := q.inQueue - 1 == 0,
                 onDevice := q.onDevice + 1, section := Free, dispatched := q.dispatched + {q.list[i]});
    if q'.flushed then Broadcast(q') else q'
  }

  /** The part of an iteration after the limit, in-order and barrier checks. */
  function ScanEvent(q: Queue, event: Event): (r: (Queue, bool))
    requires q.section.Pushing? && q.section.index < |q.list|
  {
    var i := q.section.index;
    if event.status != Queued then
      if q.section.ready == Some(q.list[i]) then (EndScan(q), false)
      else (q.(section := q.section.(index := i + 1)), false)
    else if event.waits != [] then
      var q' := q.(flushed := false);
      if event.kind == WaitForEvents then (EndScan(q'), false)
      else (q'.(section := q.section.(index := i + 1)), false)
    else if event.Instantaneous() then (DispatchInstantaneous(q, i), false)
    else (q.(onDevice := q.onDevice + 1, dispatched := q.dispatched + {q.list[i]}), true)
  }

  /** One iteration of the loop of `pushEventsOnDevice` on the event under the iterator; the
      boolean says that this event is submitted. */
  function ScanIteration(q: Queue, event: Event): (r: (Queue, bool))
    requires q.section.Pushing? && q.section.index < |q.list|
  {
    var c := q.section;
    if event.Done() then (DropCompleted(q, c.index), false)
    else if c.ready.None? && c.traversed > OOO_QUEUE_PUSH_EVENTS_THRESHOLD then (EndScan(q), false)
    else if !q.outOfOrder && !c.first then (EndScan(q.(flushed := false)), false)
    else if event.kind == Barrier && !c.first then (EndScan(q.(flushed := false)), false)
    else ScanEvent(q.(section := c.(first := false, traversed := c.traversed + 1)), event)
  }

  /** One iteration of `cleanEvents`, or its end. */
  function CleanIteration(q: Queue, events: seq<Event>): Queue
    requires q.section.Cleaning? && QueueTyped(q, |events|)
  {
    var i := q.section.index;
    if i == |q.list| || (!events[q.list[i]].Done() && !q.outOfOrder) then
      var q' := q.(section := Free);
      if q.inQueue == 0 then Broadcast(q') else q'
    else if events[q.list[i]].Done() then DropCompleted(q, i)
    else q.(section := Cleaning(i + 1))
  }

  // ----- Steps of the whole system

  datatype Step =
    | CreateUser
    | BeginEvent(queue: QueueId, kind: Kind, waitList: seq<EventId>)
    | LinkWait(event: EventId)
    | RecordWait(event: EventId)
    | EndEvent(event: EventId)
    | Append(event: EventId)
    | Flush(queue: QueueId)
    | Sleep(queue: QueueId)
    | Recheck(queue: QueueId)
    | BeginClean(queue: QueueId)
    | Clean(queue: QueueId)
    | BeginPush(queue: QueueId, push: Push, enough: bool)
    | Scan(queue: QueueId)
    | Start(event: EventId)
    | BeginComplete(event: EventId)
    | Notify(event: EventId)
    | EndComplete(event: EventId)

  /** Steps that need no further call of the host program. */
  predicate Internal(step: Step) {
    step.Clean? || step.BeginPush? || step.Scan? || step.Start? || step.BeginComplete? ||
    step.Notify? || step.EndComplete? || step.Recheck?
  }

  /** A wait list may name user events and events that are already queued. */
  predicate Nameable(events: seq<Event>, x: EventId) {
    x < |events| && (events[x].kind == User || events[x].stage.Enqueued?)
  }

  predicate InDispatched(s: State, e: EventId) {
    && e < |s.events|
    && s.events[e].parent.Some? && s.events[e].parent.value < |s.queues|
    && e in s.queues[s.events[e].parent.value].dispatched
  }

  predicate IsFree(s: State, q: QueueId) { q < |s.queues| && s.queues[q].section.Free? }

  ghost predicate Enabled(s: State, step: Step) {
    match step
    case CreateUser => true
    case BeginEvent(q, kind, waitList) =>
      q < |s.queues| && kind != User && (forall x :: x in waitList ==> Nameable(s.events, x))
    case LinkWait(e) =>
      && e < |s.events| && s.events[e].stage.Building? && !s.events[e].stage.linked
      && s.events[e].stage.next < |s.events[e].waitList|
    case RecordWait(e) =>
      e < |s.events| && s.events[e].stage.Building? && s.events[e].stage.linked
    case EndEvent(e) =>
      && e < |s.events| && s.events[e].stage.Building? && !s.events[e].stage.linked
      && s.events[e].stage.next == |s.events[e].waitList|
    case Append(e) =>
      && e < |s.events| && s.events[e].stage.Built? && s.events[e].parent.Some?
      && IsFree(s, s.events[e].parent.value)
    case Flush(q) => q < |s.queues|
    case Sleep(q) => IsFree(s, q) && s.queues[q].inQueue != 0
    case Recheck(q) => IsFree(s, q) && s.queues[q].woken > 0
    case BeginClean(q) => IsFree(s, q)
    case Clean(q) => q < |s.queues| && s.queues[q].section.Cleaning?
    case BeginPush(q, p, _) => IsFree(s, q) && p in s.queues[q].pushes
    case Scan(q) => q < |s.queues| && s.queues[q].section.Pushing?
    case Start(e) => e < |s.events| && s.events[e].kind == Command && s.events[e].status == Submitted
    case BeginComplete(e) =>
      && e < |s.events| && !s.events[e].Done()
      && (s.events[e].kind == User || InDispatched(s, e))
    case Notify(e) =>
      && e < |s.events| && s.events[e].progress.Notifying?
      && s.events[e].progress.next < |s.events[e].dependents|
      && var d := s.events[e].dependents[s.events[e].progress.next];
         d < |s.events| && !s.events[d].stage.Building?
    case EndComplete(e) =>
      && e < |s.events| && s.events[e].progress.Notifying?
      && s.events[e].progress.next == |s.events[e].dependents|
  }

  function NewEvent(kind: Kind, parent: Option<QueueId>, waitList: seq<EventId>): Event {
    if kind == User then Event(User, None, Submitted, [], [], [], Built, Idle)
    else Event(kind, parent, Queued, waitList, [], [], Building(0, false), Idle)
  }

  /** `Event::addDependentEvent` on the next entry of the wait list. */
  ghost function ApplyLink(s: State, e: EventId): State
    requires Typed(s) && Enabled(s, LinkWait(e))
  {
    var k := s.events[e].stage.next;
    var x := s.events[e].waitList[k];
    if s.events[x].Done() then
      s.(events := s.events[e := s.events[e].(stage := Building(k + 1, false))])
    else
      var events := s.events[x := s.events[x].(dependents := s.events[x].dependents + [e])];
      s.(events := events[e := events[e].(stage := Building(k, true))])
  }

  /** `p_wait_events.push_back` in the constructor. */
  ghost function ApplyRecord(s: State, e: EventId): State
    requires Typed(s) && Enabled(s, RecordWait(e))
  {
    var ev := s.events[e];
    s.(events := s.events[e := ev.(waits := ev.waits + [ev.waitList[ev.stage.next]],
                                   stage := Building(ev.stage.next + 1, false))])
  }

  /** The queue after `queueEvent` appended `e`, with the push that follows pending. */
  function Longer(qu: Queue, e: EventId): Queue {
    qu.(list := qu.list + [e], inQueue := qu.inQueue + 1, flushed := false,
        pushes := qu.pushes + multiset{Push(None, None)})
  }

  /** The critical section of `queueEvent`; the push that follows it becomes pending. */
  function ApplyAppend(s: State, e: EventId): State
    requires e < |s.events| && s.events[e].parent.Some? && s.events[e].parent.value < |s.queues|
  {
    var q := s.events[e].parent.value;
    var qu := s.queues[q];
    State(s.events[e := s.events[e].(stage := Enqueued(s.clock))],
          s.queues[q := Longer(qu, e)],
          s.clock + 1)
  }

  function AddPush(s: State, q: QueueId, p: Push): State
    requires q < |s.queues|
  {
    s.(queues := s.queues[q := s.queues[q].(pushes := s.queues[q].pushes + multiset{p})])
  }

  /** A thread in `finish` finds the queue not empty and waits. */
  function ApplySleep(s: State, q: QueueId): State
    requires q < |s.queues|
  {
    s.(queues := s.queues[q := s.queues[q].(sleepers := s.queues[q].sleepers + 1)])
  }

  /** A woken thread leaves `finish` if the queue is empty, and waits again otherwise. */
  function Rechecked(qu: Queue): Queue
    requires qu.woken > 0
  {
    qu.(woken := qu.woken - 1, sleepers := if qu.inQueue != 0 then qu.sleepers + 1 else qu.sleepers)
  }

  function ApplyBeginClean(s: State, q: QueueId): State
    requires q < |s.queues|
  {
    var qu := s.queues[q];
    if qu.completed < CLEAN_THRESHOLD && qu.onDevice > 0 && qu.inQueue - qu.completed > 0 then s
    else s.(queues := s.queues[q := qu.(section := Cleaning(0))])
  }

  ghost function ApplyScan(s: State, q: QueueId): State
    requires Typed(s) && Enabled(s, Scan(q))
  {
    var qu := s.queues[q];
    if qu.section.index == |qu.list| then s.(queues := s.queues[q := EndScan(qu)])
    else
      var e := qu.list[qu.section.index];
      var (qu', submit) := ScanIteration(qu, s.events[e]);
      State(if submit then s.events[e := s.events[e].(status := Submitted)] else s.events,
            s.queues[q := qu'], s.clock)
  }

  /** The critical section of `setStatusHelper(CL_COMPLETE)`. */
  function ApplyBeginComplete(s: State, e: EventId): State
    requires e < |s.events|
  {
    s.(events := s.events[e := s.events[e].(status := Complete, progress := Notifying(0, false))])
  }

  /** The dependent that the completion of `e` notifies next. */
  function Dependent(s: State, e: EventId): EventId
    requires e < |s.events| && s.events[e].progress.Notifying? && s.events[e].progress.next < |s.events[e].dependents|
  {
    s.events[e].dependents[s.events[e].progress.next]
  }

  /** The notification empties the wait set of a dependent that belongs to a queue. */
  ghost predicate Wakes(s: State, e: EventId)
    requires Enabled(s, Notify(e))
  {
    var d := Dependent(s, e);
    Without(s.events[d].waits, e) == [] && s.events[d].parent.Some?
  }

  /** ... and this queue is also the parent of `e`. */
  ghost predicate WakesOwn(s: State, e: EventId)
    requires Enabled(s, Notify(e))
  {
    Wakes(s, e) && s.events[e].parent == s.events[Dependent(s, e)].parent
  }

  /** `removeWaitEvent` on the dependent; the loop of `e` moves on. */
  ghost function NotifyEvents(s: State, e: EventId): seq<Event>
    requires Enabled(s, Notify(e))
  {
    var d := Dependent(s, e);
    var events := s.events[d := s.events[d].(waits := Without(s.events[d].waits, e))];
    events[e := events[e].(progress := Notifying(s.events[e].progress.next + 1,
                                                 s.events[e].progress.pushed || WakesOwn(s, e)))]
  }

  /** One iteration of the dependents loop, with a push of the dependent's queue when its wait set
      is empty. */
  ghost function ApplyNotify(s: State, e: EventId): State
    requires Typed(s) && Enabled(s, Notify(e))
  {
    var d := Dependent(s, e);
    var s' := s.(events := NotifyEvents(s, e));
    assert EventTyped(s.events[d], |s.events|, |s.queues|);
    if Wakes(s, e) then
      AddPush(s', s.events[d].parent.value, Push(Some(d), if WakesOwn(s, e) then Some(e) else None))
    else s'
  }

  /** After the loop: report the completion to the parent queue unless a push did so. */
  function ApplyEndComplete(s: State, e: EventId): State
    requires e < |s.events| && s.events[e].progress.Notifying?
    requires s.events[e].parent.Some? ==> s.events[e].parent.value < |s.queues|
  {
    var s' := s.(events := s.events[e := s.events[e].(progress := Idle)]);
    if s.events[e].parent.Some? && !s.events[e].progress.pushed then
      AddPush(s', s.events[e].parent.value, Push(None, Some(e)))
    else s'
  }

  ghost function Apply(s: State, step: Step): State
    requires Typed(s) && Enabled(s, step)
  {
    match step
    case CreateUser => s.(events := s.events + [NewEvent(User, None, [])])
    case BeginEvent(q, kind, waitList) => s.(events := s.events + [NewEvent(kind, Some(q), waitList)])
    case LinkWait(e) => ApplyLink(s, e)
    case RecordWait(e) => ApplyRecord(s, e)
    case EndEvent(e) => s.(events := s.events[e := s.events[e].(stage := Built)])
    case Append(e) => ApplyAppend(s, e)
    case Flush(q) => AddPush(s, q, Push(None, None))
    case Sleep(q) => ApplySleep(s, q)
    case Recheck(q) => s.(queues := s.queues[q := Rechecked(s.queues[q])])
    case BeginClean(q) => ApplyBeginClean(s, q)
    case Clean(q) => s.(queues := s.queues[q := CleanIteration(s.queues[q], s.events)])
    case BeginPush(q, p, enough) => s.(queues := s.queues[q := EnterPush(s.queues[q], p, enough)])
    case Scan(q) => ApplyScan(s, q)
    case Start(e) => s.(events := s.events[e := s.events[e].(status := Running)])
    case BeginComplete(e) => ApplyBeginComplete(s, e)
    case Notify(e) => ApplyNotify(s, e)
    case EndComplete(e) => ApplyEndComplete(s, e)
  }

  ghost predicate Next(s: State, t: State) {
    Typed(s) && exists step :: Enabled(s, step) && t == Apply(s, step)
  }

  // ----- Runs

  ghost predicate Init(s: State) {
    && s.events == []
    && forall q :: 0 <= q < |s.queues| ==>
         s.queues[q] == Queue(s.queues[q].outOfOrder, [], 0, 0, 0, true, Free, multiset{}, 0, 0, {}, {})
  }

  ghost predicate IsRun(run: seq<State>) {
    && run != []
    && forall i :: 0 <= i < |run| - 1 ==> Next(run[i], run[i + 1])
  }

  ghost predicate Reaches(s: State, t: State) {
    exists run :: IsRun(run) && run[0] == s && run[|run| - 1] == t
  }

  ghost predicate Reachable(s: State) {
    exists s0 :: Init(s0) && Reaches(s0, s)
  }
}
