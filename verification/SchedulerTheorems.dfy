/** What the scheduler promises, for every reachable state of any number of queues. */
module SchedulerTheorems {
  import opened Wrappers
  import opened SchedulerModel
  import opened SchedulerInvariant
  import opened SchedulerSafety

  // ----- Dependencies

  /** A dispatched event has every event of the wait list it was built with complete. */
  lemma DependencySafety(s: State, e: EventId)
    requires Reachable(s) && InDispatched(s, e)
    ensures forall x :: x in s.events[e].waitList ==> x < |s.events| && s.events[x].Done()
  {
    ReachableInv(s);
    var q := s.events[e].parent.value;
    assert QueueOk(q, s.queues[q], s.events) && WaitOk(s.events, e);
    assert Mine(q, s.events, e) && s.events[e].waits == [];
    assert Treated(s.events[e]) == s.events[e].waitList;
  }

  /** `x` stays in the wait set of `e` only while `x` is not complete, or while the dependents loop
      of `x` has not reached `e`. */
  lemma NoLostNotification(s: State, e: EventId, x: EventId)
    requires Reachable(s) && e < |s.events| && x in s.events[e].waits
    ensures x < |s.events|
    ensures exists j :: 0 <= j < |s.events[x].dependents| && s.events[x].dependents[j] == e
              && (s.events[x].Done() ==> s.events[x].progress.Notifying? && s.events[x].progress.next <= j)
  {
    ReachableInv(s);
    assert WaitOk(s.events, e) && Owes(s.events[x], e);
    var j :| 0 <= j < |s.events[x].dependents| && s.events[x].dependents[j] == e && NotReached(s.events[x], j);
  }

  // ----- Order of dispatch

  /** In-order queues: everything queued before a dispatched event is dispatched, and complete
      unless it is instantaneous. */
  lemma InOrderSafety(s: State, q: QueueId, e: EventId, f: EventId)
    requires Reachable(s) && q < |s.queues| && !s.queues[q].outOfOrder
    requires f in s.queues[q].dispatched && Before(q, s.events, e, f)
    ensures e in s.queues[q].dispatched && (s.events[e].kind == Command ==> s.events[e].Done())
  {
    ReachableInv(s);
    assert QueueOk(q, s.queues[q], s.events);
    assert Cleared(q, s.queues[q], s.events, f);
  }

  /** Barriers, with or without a wait list: once an event behind the barrier is dispatched, the
      commands in front of the barrier are complete and the other events there are dispatched. */
  lemma BarrierSafety(s: State, q: QueueId, e: EventId, b: EventId, f: EventId)
    requires Reachable(s) && q < |s.queues| && f in s.queues[q].dispatched
    requires Before(q, s.events, e, b) && Before(q, s.events, b, f) && s.events[b].kind == Barrier
    ensures e in s.queues[q].dispatched && (s.events[e].kind == Command ==> s.events[e].Done())
  {
    ReachableInv(s);
    assert QueueOk(q, s.queues[q], s.events);
    assert Cleared(q, s.queues[q], s.events, f);
  }

  /** A barrier without wait list and a WaitForEvents event leave the list before anything queued
      behind them is dispatched, and then everything they wait for is complete. */
  lemma FenceSafety(s: State, q: QueueId, w: EventId, f: EventId)
    requires Reachable(s) && q < |s.queues| && f in s.queues[q].dispatched
    requires Before(q, s.events, w, f)
    requires s.events[w].kind == WaitForEvents || (s.events[w].kind == Barrier && s.events[w].waitList == [])
    ensures w in s.queues[q].dispatched
    ensures forall x :: x in s.events[w].waitList ==> x < |s.events| && s.events[x].Done()
  {
    ReachableInv(s);
    assert QueueOk(q, s.queues[q], s.events);
    assert Cleared(q, s.queues[q], s.events, f);
    DependencySafety(s, w);
  }

  // ----- Counters and sleeping threads

  /** The counters, at every lock boundary and inside every scan. */
  lemma CounterLaw(s: State, q: QueueId)
    requires Reachable(s) && q < |s.queues|
    ensures var qu := s.queues[q];
      && qu.inQueue == |qu.list|
      && qu.onDevice + qu.completed ==
         |set e | e in qu.dispatched && (e in qu.list || (e < |s.events| && s.events[e].kind != Command))|
      && qu.onDevice <= |qu.dispatched| - |qu.accounted|
      && (forall e :: e in qu.accounted ==> e in qu.dispatched && e < |s.events| && s.events[e].Done())
      && (forall e :: e in qu.list ==> e < |s.events| && (e in qu.dispatched <==> s.events[e].status != Queued))
  {
    ReachableInv(s);
    var qu := s.queues[q];
    assert QueueOk(q, qu, s.events);
    assert Outstanding(qu, s.events) ==
           set e | e in qu.dispatched && (e in qu.list || (e < |s.events| && s.events[e].kind != Command));
    forall e | e in qu.list ensures e < |s.events| {
      var i :| 0 <= i < |qu.list| && qu.list[i] == e;
      assert Mine(q, s.events, qu.list[i]);
    }
  }

  /** A thread in `finish` never sleeps on an empty queue while the mutex is free. */
  lemma FinishNotForgotten(s: State, q: QueueId)
    requires Reachable(s) && q < |s.queues| && s.queues[q].section.Free? && s.queues[q].sleepers > 0
    ensures s.queues[q].inQueue != 0 && s.queues[q].list != []
  {
    ReachableInv(s);
    assert QueueOk(q, s.queues[q], s.events);
  }

  // ----- No starvation

  /** Nothing is in flight, no completion and no push is going on, all user events are complete. */
  ghost predicate Quiescent(s: State) {
    && (forall e :: 0 <= e < |s.events| && s.events[e].kind == User ==> s.events[e].Done())
    && (forall e :: 0 <= e < |s.events| ==> s.events[e].progress.Idle?)
    && (forall e :: 0 <= e < |s.events| && InDispatched(s, e) ==> s.events[e].Done())
    && (forall q :: 0 <= q < |s.queues| ==> s.queues[q].section.Free? && s.queues[q].pushes == multiset{})
  }

  lemma QuiescentNotObliged(s: State, q: QueueId)
    requires Inv(s) && Quiescent(s) && q < |s.queues|
    ensures !Obliged(s.queues[q])
  {
    assert QueueOk(q, s.queues[q], s.events);
    forall e | e in s.queues[q].dispatched ensures e in s.queues[q].accounted {
      assert Mine(q, s.events, e) && InDispatched(s, e);
    }
  }

  lemma HeadIsMember(xs: seq<EventId>)
    ensures xs == [] || exists x :: x in xs
  {
    assert xs == [] || xs[0] in xs;
  }

  /** The wait set of the oldest event that is not complete is empty. */
  lemma OldestHasNoWaits(s: State, e: EventId)
    requires Inv(s) && Quiescent(s) && e < |s.events| && s.events[e].stage.Enqueued?
    requires forall x | 0 <= x < |s.events| && s.events[x].stage.Enqueued?
                        && s.events[x].stage.ticket < s.events[e].stage.ticket :: s.events[x].Done()
    ensures s.events[e].waits == []
  {
    assert WaitOk(s.events, e) && EventTyped(s.events[e], |s.events|, |s.queues|);
    hide QueueOk;
    forall x | x in s.events[e].waitList ensures x < |s.events| && !Owes(s.events[x], e) {
      assert Nameable(s.events, x) && Earlier(s.events[x], s.events[e]);
      assert s.events[x].Done() && s.events[x].progress.Idle?;
    }
    HeadIsMember(s.events[e].waits);
  }

  lemma OldestIsDone(s: State, q: QueueId, e: EventId, k: nat)
    requires Inv(s) && Quiescent(s) && q < |s.queues| && k < |s.queues[q].list| && s.queues[q].list[k] == e
    requires e < |s.events| && s.events[e].waits == []
    requires forall i :: 0 <= i < k ==> s.queues[q].list[i] < |s.events| && s.events[s.queues[q].list[i]].Done()
    ensures s.events[e].Done()
  {
    var qu := s.queues[q];
    QuiescentNotObliged(s, q);
    assert QueueOk(q, qu, s.events);
    assert e in qu.list && Mine(q, s.events, qu.list[k]);
    assert s.events[e].status == Queued || InDispatched(s, e);
    var i: nat :| BlockedAt(qu.list, s.events, i);
    assert i >= k;
  }

  /** In a quiescent state every queued event is complete. */
  lemma {:induction false} QueuedIsDone(s: State, e: EventId)
    requires Inv(s) && Quiescent(s) && e < |s.events| && s.events[e].stage.Enqueued?
    ensures s.events[e].Done()
    decreases s.events[e].stage.ticket
  {
    hide QueueOk, WaitOk;
    forall x | 0 <= x < |s.events| && s.events[x].stage.Enqueued? && s.events[x].stage.ticket < s.events[e].stage.ticket
      ensures s.events[x].Done()
    {
      QueuedIsDone(s, x);
    }
    OldestHasNoWaits(s, e);
    var q, k := Place(s, e);
    if !InDispatched(s, e) { OldestIsDone(s, q, e, k); }
  }

  /** A queued event that was not dispatched is listed, after older events. */
  lemma Place(s: State, e: EventId) returns (q: QueueId, k: nat)
    requires Inv(s) && e < |s.events| && s.events[e].stage.Enqueued?
    ensures s.events[e].parent == Some(q) && q < |s.queues|
    ensures !InDispatched(s, e) ==>
      && k < |s.queues[q].list| && s.queues[q].list[k] == e
      && forall i :: 0 <= i < k ==>
           var x := s.queues[q].list[i];
           x < |s.events| && s.events[x].stage.Enqueued? && s.events[x].stage.ticket < s.events[e].stage.ticket
  {
    assert EventOk(s.events[e], s.clock) && EventTyped(s.events[e], |s.events|, |s.queues|);
    q, k := s.events[e].parent.value, 0;
    var qu := s.queues[q];
    assert QueueOk(q, qu, s.events) && Mine(q, s.events, e);
    if !InDispatched(s, e) {
      assert e in qu.list || Settled(qu, s.events, e);
      k :| 0 <= k < |qu.list| && qu.list[k] == e;
      assert forall i :: 0 <= i < k ==> Mine(q, s.events, qu.list[i]);
    }
  }

  /** No starvation: a quiescent state has empty queues, nobody asleep in `finish`, and every event
      that was ever queued is complete. */
  lemma NoStarvation(s: State)
    requires Reachable(s) && Quiescent(s)
    ensures forall e :: 0 <= e < |s.events| && s.events[e].stage.Enqueued? ==> s.events[e].Done()
    ensures forall q :: 0 <= q < |s.queues| ==> s.queues[q].list == [] && s.queues[q].sleepers == 0
  {
    ReachableInv(s);
    hide WaitOk;
    forall e | 0 <= e < |s.events| && s.events[e].stage.Enqueued? ensures s.events[e].Done() { QueuedIsDone(s, e); }
    forall q | 0 <= q < |s.queues| ensures s.queues[q].list == [] && s.queues[q].sleepers == 0 {
      QuiescentNotObliged(s, q);
      assert QueueOk(q, s.queues[q], s.events);
      forall i: nat ensures !BlockedAt(s.queues[q].list, s.events, i) {
        assert i < |s.queues[q].list| ==> Mine(q, s.events, s.queues[q].list[i]);
      }
    }
  }
}
