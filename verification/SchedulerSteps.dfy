/**
 What single steps of a completion and of `finish` do, over the fields of the state before them.
 */
module SchedulerSteps {
  import opened Wrappers
  import opened SchedulerModel
  import opened SchedulerInvariant
  import opened SchedulerComplete
  import opened SchedulerSafety

  /** The notified dependent becomes ready: it waits for nothing but `e`, and belongs to queue `q`. */
  ghost predicate BecomesReady(d: Event, e: EventId, q: QueueId) {
    d.parent == Some(q) && forall y :: y in d.waits ==> y == e
  }

  /** One iteration of the dependents loop of `e`, on its next dependent `d`. Exactly `e` leaves the wait
      set of `d`. If `d` thereby becomes ready, its queue, and no other, gets one push for it, which reports
      the completion of `e` exactly if that queue is the parent of `e`; this is remembered. Nothing else
      changes. */
  lemma NotifyExact(s: State, e: EventId, d: EventId)
    requires Typed(s) && Enabled(s, Notify(e)) && d == s.events[e].dependents[s.events[e].progress.next]
    ensures var t, x := ApplyNotify(s, e), s.events[e];
      && |t.events| == |s.events| && |t.queues| == |s.queues| && t.clock == s.clock
      && (forall y :: y in t.events[d].waits <==> y in s.events[d].waits && y != e)
      && (forall f :: 0 <= f < |s.events| ==>
            t.events[f] == s.events[f].(waits := t.events[f].waits, progress := t.events[f].progress))
      && (forall f :: 0 <= f < |s.events| && f != d ==> t.events[f].waits == s.events[f].waits)
      && (forall f :: 0 <= f < |s.events| && f != e ==> t.events[f].progress == s.events[f].progress)
      && (forall q :: 0 <= q < |s.queues| ==> t.queues[q] == s.queues[q].(pushes := t.queues[q].pushes))
      && (forall q | 0 <= q < |s.queues| ::
            var report := if x.parent == Some(q) then Some(e) else None;
            var added := if BecomesReady(s.events[d], e, q) then multiset{Push(Some(d), report)} else multiset{};
            t.queues[q].pushes == s.queues[q].pushes + added)
      && t.events[e].progress.Notifying? && t.events[e].progress.next == x.progress.next + 1
      && (t.events[e].progress.pushed <==>
            x.progress.pushed || (x.parent.Some? && BecomesReady(s.events[d], e, x.parent.value)))
  {
    assert EventTyped(s.events[d], |s.events|, |s.queues|);
    WithoutFacts(s.events[d].waits, e);
    EmptyMeansNone(Without(s.events[d].waits, e));
    hide Typed, EventTyped, Without;
    var q := s.events[d].parent;
    assert q.Some? ==> (BecomesReady(s.events[d], e, q.value) <==> Without(s.events[d].waits, e) == []);
  }

  lemma EmptyMeansNone(xs: seq<EventId>)
    ensures xs == [] <==> forall x :: x !in xs
  {
    if xs != [] { assert xs[0] in xs; }
  }

  /** After the dependents loop: the parent queue gets one push that reports the completion, unless an
      earlier push did. */
  lemma EndCompleteExact(s: State, e: EventId)
    requires Typed(s) && Enabled(s, EndComplete(e))
    ensures var t, x := Apply(s, EndComplete(e)), s.events[e];
      && |t.queues| == |s.queues| && t.clock == s.clock
      && t.events == s.events[e := x.(progress := Idle)]
      && (forall q :: 0 <= q < |s.queues| ==> t.queues[q] == s.queues[q].(pushes := t.queues[q].pushes))
      && (forall q | 0 <= q < |s.queues| ::
            var added := x.parent == Some(q) && !x.progress.pushed;
            t.queues[q].pushes == s.queues[q].pushes + if added then multiset{Push(None, Some(e))} else multiset{})
  {
    assert EventTyped(s.events[e], |s.events|, |s.queues|);
    hide Typed, EventTyped;
  }

  /** Taking a push counts the completion it reports, and scans unless the queue is out of order, no event
      is ready, more than 2 events are then on the device, and the device is full. */
  lemma BeginPushExact(s: State, q: QueueId, p: Push, enough: bool)
    requires Typed(s) && Enabled(s, BeginPush(q, p, enough))
    ensures var t, qu := Apply(s, BeginPush(q, p, enough)), s.queues[q];
      var n := if p.completed.Some? then 1 else 0;
      var scan := !(qu.outOfOrder && p.ready == None && qu.onDevice - n > 2 && enough);
      && t.events == s.events && t.clock == s.clock && |t.queues| == |s.queues|
      && (forall k :: 0 <= k < |s.queues| && k != q ==> t.queues[k] == s.queues[k])
      && t.queues[q].onDevice == qu.onDevice - n && t.queues[q].completed == qu.completed + n
      && t.queues[q].list == qu.list && t.queues[q].inQueue == qu.inQueue && t.queues[q].dispatched == qu.dispatched
      && t.queues[q].section == (if scan then Pushing(0, true, 0, p.ready) else Free)
      && t.queues[q].flushed == (scan || qu.flushed)
      && t.queues[q].sleepers == qu.sleepers && t.queues[q].woken == qu.woken
  {
    hide Typed;
  }

  /** Threads inside `finish` on queue `q`. */
  function Finishing(s: State, q: QueueId): nat
    requires q < |s.queues|
  {
    s.queues[q].sleepers + s.queues[q].woken
  }

  /** Which step changes the number of threads in `finish`. */
  lemma FinishingSteps(s: State, step: Step, q: QueueId)
    requires Typed(s) && Enabled(s, step) && q < |s.queues|
    ensures q < |Apply(s, step).queues|
    ensures Finishing(Apply(s, step), q) < Finishing(s, q) ==>
      step == Recheck(q) && s.queues[q].inQueue == 0 && s.queues[q].section.Free?
    ensures Finishing(Apply(s, step), q) > Finishing(s, q) ==>
      step == Sleep(q) && s.queues[q].inQueue != 0 && s.queues[q].section.Free?
  {
    if step.Notify? {
      NotifyFinishing(s, step.event, q);
    } else if step.EndComplete? || step.Append? {
      assert EventTyped(s.events[step.event], |s.events|, |s.queues|);
    } else if step.Scan? {
      ScanFinishing(s, step.queue, q);
    } else if step.Clean? {
      assert QueueTyped(s.queues[step.queue], |s.events|);
    }
    hide Typed, EventTyped, ApplyScan, ApplyNotify;
  }

  lemma NotifyFinishing(s: State, e: EventId, q: QueueId)
    requires Typed(s) && Enabled(s, Notify(e)) && q < |s.queues|
    ensures q < |ApplyNotify(s, e).queues| && Finishing(ApplyNotify(s, e), q) == Finishing(s, q)
  {
    assert EventTyped(s.events[Dependent(s, e)], |s.events|, |s.queues|);
    hide Typed, EventTyped, NotifyEvents, Wakes, WakesOwn;
  }

  lemma ScanFinishing(s: State, k: QueueId, q: QueueId)
    requires Typed(s) && Enabled(s, Scan(k)) && q < |s.queues|
    ensures q < |ApplyScan(s, k).queues| && Finishing(ApplyScan(s, k), q) == Finishing(s, q)
  {
    ScanStep(s, k);
    var qu := s.queues[k];
    if qu.section.index < |qu.list| {
      var qu' := ScanIteration(qu, s.events[qu.list[qu.section.index]]).0;
      assert qu'.sleepers + qu'.woken == qu.sleepers + qu.woken;
    }
    hide Typed, ApplyScan, ScanIteration;
  }

  /** `finish` returns only on an empty queue: whenever a thread leaves it, the list is empty and the mutex
      free. */
  lemma FinishReturnsEmpty(s: State, t: State, q: QueueId)
    requires Reachable(s) && Next(s, t) && q < |s.queues|
    ensures q < |t.queues|
    ensures Finishing(t, q) < Finishing(s, q) ==> s.queues[q].list == [] && s.queues[q].section.Free?
  {
    ReachableInv(s);
    assert QueueOk(q, s.queues[q], s.events);
    hide Inv, Apply;
    var step :| Enabled(s, step) && t == Apply(s, step);
    FinishingSteps(s, step, q);
  }
}
