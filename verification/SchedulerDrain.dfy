/**
 What an undisturbed scan of `pushEventsOnDevice` does to its queue and to the events, proved equal to
 the sweep of the list and then stated over the positions of the list and the fields of the events.
 */
module SchedulerDrain {
  import opened Wrappers
  import opened Sequences
  import opened SchedulerModel
  import opened SchedulerScan
  import opened SchedulerSweep

  // ----- What an undisturbed scan computes

  /** An iteration keeps identifiers in range and comes closer to the end, or submits and stays. */
  lemma IterationProgress(q: Queue, ev: seq<Event>)
    requires QueueTyped(q, |ev|) && q.section.Pushing? && q.section.index < |q.list|
    ensures var (q', submit) := ScanIteration(q, ev[q.list[q.section.index]]);
      && QueueTyped(q', |ev|) && !q'.section.Cleaning?
      && (submit ==> ev[q.list[q.section.index]].status == Queued && q'.section.Pushing?
                     && q'.list == q.list && q'.section.index == q.section.index)
      && (!submit && q'.section.Pushing? ==> |q'.list| - q'.section.index < |q.list| - q.section.index)
  {
  }

  /** All iterations of a scan of `pushEventsOnDevice`, up to the release of the mutex. */
  function Drain(q: Queue, ev: seq<Event>): (r: (Queue, seq<Event>))
    requires QueueTyped(q, |ev|)
    ensures QueueTyped(r.0, |ev|) && |r.1| == |ev|
    ensures q.section.Pushing? ==> r.0.section.Free?
    decreases if q.section.Pushing? then |q.list| - q.section.index else 0,
              if q.section.Pushing? && q.section.index < |q.list| && ev[q.list[q.section.index]].status == Queued
              then 1 else 0
  {
    if !q.section.Pushing? then (q, ev)
    else if q.section.index == |q.list| then (EndScan(q), ev)
    else
      var e := q.list[q.section.index];
      IterationProgress(q, ev);
      var (q', submit) := ScanIteration(q, ev[e]);
      Drain(q', AfterScan(ev, e, submit))
  }

  lemma DrainStep(q: Queue, ev: seq<Event>)
    requires QueueTyped(q, |ev|) && q.section.Pushing? && q.section.index < |q.list|
    ensures var e := q.list[q.section.index];
      var (q', submit) := ScanIteration(q, ev[e]);
      && QueueTyped(q', |ev|)
      && Drain(q, ev) == Drain(q', AfterScan(ev, e, submit))
      && (q'.section.Free? ==> Drain(q, ev) == (q', AfterScan(ev, e, submit)))
  {
    IterationProgress(q, ev);
  }

  lemma DrainEnd(q: Queue, ev: seq<Event>)
    requires QueueTyped(q, |ev|) && (q.section.Pushing? ==> q.section.index == |q.list|)
    ensures Drain(q, ev) == (if q.section.Pushing? then EndScan(q) else q, ev)
  {
  }

  /** The branches of an iteration before it looks at the status. */
  lemma IterationCases(q: Queue, event: Event)
    requires q.section.Pushing? && q.section.index < |q.list|
    ensures var c, r := q.section, ScanIteration(q, event);
      if event.Done() then r == (DropCompleted(q, c.index), false)
      else if c.ready.None? && c.traversed > OOO_QUEUE_PUSH_EVENTS_THRESHOLD then r == (EndScan(q), false)
      else if (!q.outOfOrder && !c.first) || (event.kind == Barrier && !c.first) then
        r == (EndScan(q.(flushed := false)), false)
      else r == ScanEvent(q.(section := Pushing(c.index, false, c.traversed + 1, c.ready)), event)
  {
  }

  // ----- The loop is the recursion

  /** The events after those in `taken` were dispatched: commands are submitted. */
  function HandedOver(ev: seq<Event>, taken: set<EventId>): seq<Event> {
    seq(|ev|, i requires 0 <= i < |ev| =>
      if i in taken && ev[i].kind == Command then ev[i].(status := Submitted) else ev[i])
  }

  /** The queue after a scan that kept `front` and swept the rest of the list. */
  function Finished(q: Queue, front: seq<EventId>, w: Swept): Queue
    requires q.section.Pushing?
  {
    var inQueue := q.inQueue - w.dropped - if w.instant then 1 else 0;
    var flushed := if w.instant then inQueue == 0 else q.flushed && w.clear && (q.section.ready.Some? ==> inQueue == 0);
    q.(list := front + w.kept, inQueue := inQueue, completed := q.completed - w.dropped,
       onDevice := q.onDevice + |w.taken|, dispatched := q.dispatched + w.taken, flushed := flushed, section := Free,
       sleepers := if flushed then 0 else q.sleepers, woken := if flushed then q.woken + q.sleepers else q.woken)
  }

  function RulesOf(q: Queue): Rules
    requires q.section.Pushing?
  {
    Rules(q.outOfOrder, q.section.ready, q.section.first, q.section.traversed)
  }

  predicate Distinct(list: seq<EventId>) { forall i, j :: 0 <= i < j < |list| ==> list[i] != list[j] }

  lemma HandedNone(ev: seq<Event>)
    ensures HandedOver(ev, {}) == ev
  {
  }

  lemma HandedMore(ev: seq<Event>, x: EventId, taken: set<EventId>)
    requires x < |ev| && ev[x].kind == Command && x !in taken
    ensures HandedOver(ev[x := ev[x].(status := Submitted)], taken) == HandedOver(ev, {x} + taken)
  {
  }

  lemma FinishedEnd(q: Queue, front: seq<EventId>, rest: seq<EventId>, clear: bool)
    requires q.section.Pushing? && q.list == front + rest
    ensures Finished(q, front, Swept(rest, {}, 0, false, clear)) == EndScan(q.(flushed := q.flushed && clear))
  {
  }

  lemma FinishedDrop(q: Queue, w: Swept)
    requires q.section.Pushing? && q.section.index < |q.list|
    ensures var front := q.list[..q.section.index];
      Finished(DropCompleted(q, q.section.index), front, w) == Finished(q, front, w.(dropped := w.dropped + 1))
  {
  }

  lemma FinishedAdvance(q: Queue, q': Queue, front: seq<EventId>, x: EventId, w: Swept, clear: bool)
    requires q.section.Pushing? && q'.section.Pushing? && q'.section.ready == q.section.ready
    requires q' == q.(section := q'.section, flushed := q.flushed && clear)
    ensures Finished(q', front + [x], w) == Finished(q, front, w.(kept := [x] + w.kept, clear := w.clear && clear))
  {
    assert (front + [x]) + w.kept == front + ([x] + w.kept);
  }

  lemma FinishedSubmit(q: Queue, q': Queue, front: seq<EventId>, x: EventId, w: Swept)
    requires q.section.Pushing? && q'.section.Pushing? && q'.section.ready == q.section.ready && x !in w.taken
    requires q' == q.(section := q'.section, onDevice := q.onDevice + 1, dispatched := q.dispatched + {x})
    ensures Finished(q', front, w) == Finished(q, front, w.(taken := {x} + w.taken))
  {
    assert (q.dispatched + {x}) + w.taken == q.dispatched + ({x} + w.taken);
  }

  lemma FinishedInstant(q: Queue)
    requires q.section.Pushing? && q.section.index < |q.list|
    ensures var i := q.section.index;
      Finished(q, q.list[..i], Swept(q.list[i + 1..], {q.list[i]}, 0, true, true)) == DispatchInstantaneous(q, i)
  {
  }

  /** The sweep dispatches only entries of its list, and reads only their events. */
  lemma {:induction false} SweepFrame(c: Rules, list: seq<EventId>, ev: seq<Event>, ev': seq<Event>)
    requires InRange(list, ev) && InRange(list, ev') && forall i :: 0 <= i < |list| ==> ev'[list[i]] == ev[list[i]]
    ensures Sweep(c, list, ev') == Sweep(c, list, ev)
    ensures forall x :: x in Sweep(c, list, ev).taken ==> x in list
    decreases |list|
  {
    if list != [] {
      var rest := list[1..];
      assert list == [list[0]] + rest;
      SweepFrame(c, rest, ev, ev');
      SweepFrame(c.(first := false, traversed := c.traversed + Visits(ev[list[0]])), rest, ev, ev');
    }
  }

  /** The scan of `q` from its index on computes what the sweep of the rest of the list says. */
  ghost predicate Matches(q: Queue, ev: seq<Event>)
    requires QueueTyped(q, |ev|) && q.section.Pushing?
  {
    var i := q.section.index;
    var w := Sweep(RulesOf(q), q.list[i..], ev);
    Drain(q, ev) == (Finished(q, q.list[..i], w), HandedOver(ev, w.taken))
  }

  /** One unfolding of the sweep, for an unfinished first entry. */
  lemma SweepStep(c: Rules, list: seq<EventId>, ev: seq<Event>)
    requires InRange(list, ev) && list != [] && !ev[list[0]].Done()
    ensures var x, e, w := list[0], ev[list[0]], Sweep(c, list, ev);
      var next := Sweep(c.(first := false, traversed := c.traversed + Visits(e)), list[1..], ev);
      if !Within(c, 0) then w == Swept(list, {}, 0, false, true)
      else if (!c.outOfOrder || e.kind == Barrier) && !c.first then w == Swept(list, {}, 0, false, false)
      else if Waiting(e) then
        w == if e.kind == WaitForEvents then Swept(list, {}, 0, false, false)
             else next.(kept := [x] + next.kept, clear := false)
      else if Able(e) && e.kind != Command then w == Swept(list[1..], {x}, 0, true, true)
      else if Able(e) then
        w == if !Within(c, 1) then Swept(list, {x}, 0, false, true)
             else if !c.outOfOrder then Swept(list, {x}, 0, false, false)
             else if c.ready == Some(x) then Swept(list, {x}, 0, false, true)
             else next.(kept := [x] + next.kept, taken := {x} + next.taken)
      else w == if c.ready == Some(x) then Swept(list, {}, 0, false, true) else next.(kept := [x] + next.kept)
  {
  }

  /** Position `i` is past the limit. */
  predicate Limited(q: Queue)
    requires q.section.Pushing?
  {
    q.section.ready.None? && q.section.traversed > 64
  }

  predicate Halted(q: Queue, event: Event)
    requires q.section.Pushing?
  {
    (!q.outOfOrder || event.kind == Barrier) && !q.section.first
  }

  /** The section after an examination that does not move the iterator. */
  function Again(q: Queue): Queue
    requires q.section.Pushing?
  {
    q.(section := Pushing(q.section.index, false, q.section.traversed + 1, q.section.ready))
  }

  function Moved(q: Queue): Queue
    requires q.section.Pushing?
  {
    q.(section := Pushing(q.section.index + 1, false, q.section.traversed + 1, q.section.ready))
  }

  /** One iteration on an unfinished event. */
  lemma IterationStep(q: Queue, event: Event)
    requires q.section.Pushing? && q.section.index < |q.list| && !event.Done()
    ensures var i, r := q.section.index, ScanIteration(q, event);
      if Limited(q) then r == (EndScan(q), false)
      else if Halted(q, event) then r == (EndScan(q.(flushed := false)), false)
      else if Waiting(event) then
        r == if event.kind == WaitForEvents then (EndScan(q.(flushed := false)), false)
             else (Moved(q.(flushed := false)), false)
      else if Able(event) then
        r == if event.kind != Command then (DispatchInstantaneous(q, i), false)
             else (Again(q).(onDevice := q.onDevice + 1, dispatched := q.dispatched + {q.list[i]}), true)
      else r == if q.section.ready == Some(q.list[i]) then (EndScan(q), false) else (Moved(q), false)
  {
  }

  lemma SplitAt(list: seq<EventId>, i: nat)
    requires i < |list|
    ensures list == list[..i] + list[i..] && list[i..][0] == list[i] && list[i..][1..] == list[i + 1..]
    ensures list[..i + 1] == list[..i] + [list[i]]
  {
  }

  lemma MatchDone(q: Queue, ev: seq<Event>)
    requires QueueTyped(q, |ev|) && q.section.Pushing? && q.section.index < |q.list|
    requires ev[q.list[q.section.index]].Done()
    requires var q' := DropCompleted(q, q.section.index); QueueTyped(q', |ev|) && Matches(q', ev)
    ensures Matches(q, ev)
  {
    var i := q.section.index;
    var q' := DropCompleted(q, i);
    DrainStep(q, ev);
    IterationCases(q, ev[q.list[i]]);
    hide ScanIteration, Drain;
    assert q'.list[..i] == q.list[..i] && q'.list[i..] == q.list[i..][1..];
    var w := Sweep(RulesOf(q), q.list[i + 1..], ev);
    SplitAt(q.list, i);
    assert Sweep(RulesOf(q), q.list[i..], ev) == w.(dropped := w.dropped + 1);
    hide Sweep;
    FinishedDrop(q, w);
  }

  /** The scan ends without a dispatch. */
  lemma MatchStop(q: Queue, ev: seq<Event>, clear: bool)
    requires QueueTyped(q, |ev|) && q.section.Pushing? && q.section.index < |q.list|
    requires ScanIteration(q, ev[q.list[q.section.index]]) == (EndScan(q.(flushed := q.flushed && clear)), false)
    requires Sweep(RulesOf(q), q.list[q.section.index..], ev) == Swept(q.list[q.section.index..], {}, 0, false, clear)
    ensures Matches(q, ev)
  {
    var i := q.section.index;
    DrainStep(q, ev);
    SplitAt(q.list, i);
    FinishedEnd(q, q.list[..i], q.list[i..], clear);
    HandedNone(ev);
    hide ScanIteration, Drain, Sweep, HandedOver, Finished;
  }

  lemma MatchInstant(q: Queue, ev: seq<Event>)
    requires QueueTyped(q, |ev|) && q.section.Pushing? && q.section.index < |q.list|
    requires var i := q.section.index;
      && ScanIteration(q, ev[q.list[i]]) == (DispatchInstantaneous(q, i), false) && ev[q.list[i]].kind != Command
      && Sweep(RulesOf(q), q.list[i..], ev) == Swept(q.list[i + 1..], {q.list[i]}, 0, true, true)
    ensures Matches(q, ev)
  {
    DrainStep(q, ev);
    FinishedInstant(q);
    assert HandedOver(ev, {q.list[q.section.index]}) == ev;
    hide ScanIteration, Drain, Sweep, HandedOver, Finished;
  }

  lemma MatchAdvance(q: Queue, q': Queue, ev: seq<Event>, clear: bool)
    requires QueueTyped(q, |ev|) && q.section.Pushing? && q.section.index < |q.list|
    requires ScanIteration(q, ev[q.list[q.section.index]]) == (q', false)
    requires q' == Moved(q.(flushed := q.flushed && clear)) && QueueTyped(q', |ev|) && Matches(q', ev)
    requires var x, w := q.list[q.section.index], Sweep(RulesOf(q'), q'.list[q'.section.index..], ev);
      Sweep(RulesOf(q), q.list[q.section.index..], ev) == w.(kept := [x] + w.kept, clear := w.clear && clear)
    ensures Matches(q, ev)
  {
    var i := q.section.index;
    DrainStep(q, ev);
    SplitAt(q.list, i);
    var w := Sweep(RulesOf(q'), q'.list[i + 1..], ev);
    hide ScanIteration, Drain, Sweep, HandedOver;
    FinishedAdvance(q, q', q.list[..i], q.list[i], w, clear);
  }

  /** What the sweep does after a submission, and with an entry in flight. */
  function Behind(c: Rules, list: seq<EventId>, ev: seq<Event>, limited: bool, next: Rules): Swept
    requires InRange(list, ev) && list != []
  {
    if limited then Swept(list, {}, 0, false, true)
    else if !c.outOfOrder then Swept(list, {}, 0, false, false)
    else if c.ready == Some(list[0]) then Swept(list, {}, 0, false, true)
    else
      var w := Sweep(next, list[1..], ev);
      w.(kept := [list[0]] + w.kept)
  }

  lemma SweepAble(c: Rules, list: seq<EventId>, ev: seq<Event>)
    requires InRange(list, ev) && list != [] && Able(ev[list[0]]) && ev[list[0]].kind == Command
    requires Within(c, 0) && (!c.outOfOrder ==> c.first)
    ensures var w := Behind(c, list, ev, !Within(c, 1), c.(first := false, traversed := c.traversed + 2));
      Sweep(c, list, ev) == w.(taken := {list[0]} + w.taken)
  {
  }

  lemma SweepFlight(c: Rules, list: seq<EventId>, ev: seq<Event>)
    requires InRange(list, ev) && list != [] && ev[list[0]].status == Submitted && ev[list[0]].kind == Command
    requires !c.first
    ensures Sweep(c, list, ev) ==
            Behind(c, list, ev, !Within(c, 0), c.(first := false, traversed := c.traversed + 1))
  {
  }

  /** A submitted command is met again, in flight. */
  lemma SubmitSweep(c: Rules, list: seq<EventId>, ev: seq<Event>, ev': seq<Event>)
    requires InRange(list, ev) && Distinct(list) && list != [] && Able(ev[list[0]]) && ev[list[0]].kind == Command
    requires Within(c, 0) && (!c.outOfOrder ==> c.first)
    requires ev' == ev[list[0] := ev[list[0]].(status := Submitted)]
    ensures var x, w := list[0], Sweep(c.(first := false, traversed := c.traversed + 1), list, ev');
      Sweep(c, list, ev) == w.(taken := {x} + w.taken) && x !in w.taken
  {
    var x, rest := list[0], list[1..];
    var c1, c2 := c.(first := false, traversed := c.traversed + 1), c.(first := false, traversed := c.traversed + 2);
    assert Within(c1, 0) == Within(c, 1);
    assert forall i :: 0 <= i < |rest| ==> rest[i] == list[i + 1] && rest[i] != x;
    hide Sweep, Within, Distinct;
    SweepFrame(c2, rest, ev, ev');
    SweepAble(c, list, ev);
    SweepFlight(c1, list, ev');
  }

  /** `q'` and `ev'` are the queue and the events after the entry under the iterator was submitted. */
  ghost predicate Submits(q: Queue, q': Queue, ev: seq<Event>, ev': seq<Event>)
    requires QueueTyped(q, |ev|) && q.section.Pushing? && q.section.index < |q.list|
  {
    var x := q.list[q.section.index];
    && Able(ev[x]) && ev[x].kind == Command && !Limited(q) && !Halted(q, ev[x])
    && ev' == ev[x := ev[x].(status := Submitted)]
    && q' == Again(q).(onDevice := q.onDevice + 1, dispatched := q.dispatched + {x})
  }

  lemma SubmitDrain(q: Queue, q': Queue, ev: seq<Event>, ev': seq<Event>)
    requires QueueTyped(q, |ev|) && q.section.Pushing? && q.section.index < |q.list| && Submits(q, q', ev, ev')
    ensures QueueTyped(q', |ev'|) && Drain(q, ev) == Drain(q', ev')
  {
    DrainStep(q, ev);
    IterationStep(q, ev[q.list[q.section.index]]);
    hide ScanIteration, Drain;
  }

  lemma SubmitSwept(q: Queue, q': Queue, ev: seq<Event>, ev': seq<Event>)
    requires QueueTyped(q, |ev|) && q.section.Pushing? && q.section.index < |q.list| && Submits(q, q', ev, ev')
    requires Distinct(q.list) && QueueTyped(q', |ev'|)
    ensures var i := q.section.index;
      var w := Sweep(RulesOf(q'), q'.list[i..], ev');
      Sweep(RulesOf(q), q.list[i..], ev) == w.(taken := {q.list[i]} + w.taken) && q.list[i] !in w.taken
  {
    var i := q.section.index;
    SplitAt(q.list, i);
    assert Distinct(q.list[i..]);
    SubmitSweep(RulesOf(q), q.list[i..], ev, ev');
    hide Sweep;
  }

  lemma MatchSubmit(q: Queue, q': Queue, ev: seq<Event>, ev': seq<Event>)
    requires QueueTyped(q, |ev|) && q.section.Pushing? && q.section.index < |q.list| && Submits(q, q', ev, ev')
    requires Distinct(q.list) && QueueTyped(q', |ev'|) && Matches(q', ev')
    ensures Matches(q, ev)
  {
    var i := q.section.index;
    SubmitDrain(q, q', ev, ev');
    SubmitSwept(q, q', ev, ev');
    hide Drain, Sweep, Finished, HandedOver, Distinct;
    var w := Sweep(RulesOf(q'), q'.list[i..], ev');
    FinishedSubmit(q, q', q.list[..i], q.list[i], w);
    HandedMore(ev, q.list[i], w.taken);
  }

  /** The whole scan. */
  lemma {:induction false} DrainMatches(q: Queue, ev: seq<Event>)
    requires QueueTyped(q, |ev|) && q.section.Pushing? && Distinct(q.list)
    ensures Matches(q, ev)
    decreases |q.list| - q.section.index,
              if q.section.index < |q.list| && ev[q.list[q.section.index]].status == Queued then 1 else 0, 1
  {
    var i := q.section.index;
    if i == |q.list| {
      DrainEnd(q, ev);
      assert q.list == q.list[..i] + [] && q.list[i..] == [];
      FinishedEnd(q, q.list, [], true);
      HandedNone(ev);
    } else {
      var x := q.list[i];
      SplitAt(q.list, i);
      if ev[x].Done() {
        DistinctDrop(q.list, i);
        DrainMatches(DropCompleted(q, i), ev);
        hide Matches;
        MatchDone(q, ev);
      } else {
        DrainMatchesOpen(q, ev);
      }
    }
  }

  lemma DistinctDrop(list: seq<EventId>, i: nat)
    requires Distinct(list) && i < |list|
    ensures Distinct(RemoveAt(list, i))
  {
  }

  lemma MatchEnds(q: Queue, ev: seq<Event>)
    requires QueueTyped(q, |ev|) && q.section.Pushing? && Distinct(q.list) && q.section.index < |q.list|
    requires var x := q.list[q.section.index];
      && !ev[x].Done()
      && (|| Limited(q) || Halted(q, ev[x]) || (Waiting(ev[x]) && ev[x].kind == WaitForEvents)
          || (Able(ev[x]) && ev[x].kind != Command) || (ev[x].status != Queued && q.section.ready == Some(x)))
    ensures Matches(q, ev)
  {
    var i := q.section.index;
    var x := q.list[i];
    SplitAt(q.list, i);
    IterationStep(q, ev[x]);
    SweepStep(RulesOf(q), q.list[i..], ev);
    hide Matches, ScanIteration, Sweep, Drain, EndScan, DispatchInstantaneous, Distinct;
    if Limited(q) {
      MatchStop(q, ev, true);
    } else if Halted(q, ev[x]) || (Waiting(ev[x]) && ev[x].kind == WaitForEvents) {
      MatchStop(q, ev, false);
    } else if Able(ev[x]) {
      MatchInstant(q, ev);
    } else {
      MatchStop(q, ev, true);
    }
  }

  /** The iterator passes an entry in flight (`clear`) or one that waits. */
  ghost predicate Steps(q: Queue, ev: seq<Event>, clear: bool)
    requires QueueTyped(q, |ev|) && q.section.Pushing? && q.section.index < |q.list|
  {
    var x := q.list[q.section.index];
    && !ev[x].Done() && !Limited(q) && !Halted(q, ev[x])
    && if clear then ev[x].status != Queued && q.section.ready != Some(x)
       else Waiting(ev[x]) && ev[x].kind != WaitForEvents
  }

  lemma StepsIteration(q: Queue, ev: seq<Event>, clear: bool)
    requires QueueTyped(q, |ev|) && q.section.Pushing? && q.section.index < |q.list| && Steps(q, ev, clear)
    ensures ScanIteration(q, ev[q.list[q.section.index]]) == (Moved(q.(flushed := q.flushed && clear)), false)
  {
    IterationStep(q, ev[q.list[q.section.index]]);
    hide ScanIteration;
  }

  lemma StepsSweep(q: Queue, ev: seq<Event>, clear: bool)
    requires QueueTyped(q, |ev|) && q.section.Pushing? && q.section.index < |q.list| && Steps(q, ev, clear)
    ensures var i, c := q.section.index, RulesOf(q);
      var w := Sweep(c.(first := false, traversed := c.traversed + 1), q.list[i + 1..], ev);
      Sweep(c, q.list[i..], ev) == w.(kept := [q.list[i]] + w.kept, clear := w.clear && clear)
  {
    var i := q.section.index;
    SplitAt(q.list, i);
    hide Sweep;
    SweepStep(RulesOf(q), q.list[i..], ev);
  }

  lemma MatchMoves(q: Queue, ev: seq<Event>, clear: bool)
    requires QueueTyped(q, |ev|) && q.section.Pushing? && q.section.index < |q.list| && Steps(q, ev, clear)
    requires var q' := Moved(q.(flushed := q.flushed && clear)); QueueTyped(q', |ev|) && Matches(q', ev)
    ensures Matches(q, ev)
  {
    hide Matches, ScanIteration, Sweep, Drain;
    StepsIteration(q, ev, clear);
    StepsSweep(q, ev, clear);
    hide Steps;
    MatchAdvance(q, Moved(q.(flushed := q.flushed && clear)), ev, clear);
  }

  lemma {:induction false} DrainMatchesOpen(q: Queue, ev: seq<Event>)
    requires QueueTyped(q, |ev|) && q.section.Pushing? && Distinct(q.list)
    requires q.section.index < |q.list| && !ev[q.list[q.section.index]].Done()
    ensures Matches(q, ev)
    decreases |q.list| - q.section.index, if ev[q.list[q.section.index]].status == Queued then 1 else 0, 0
  {
    var x := q.list[q.section.index];
    hide Matches, Distinct;
    if Limited(q) || Halted(q, ev[x]) || (Waiting(ev[x]) && ev[x].kind == WaitForEvents)
       || (Able(ev[x]) && ev[x].kind != Command) || (ev[x].status != Queued && q.section.ready == Some(x)) {
      MatchEnds(q, ev);
    } else if Able(ev[x]) {
      var ev' := ev[x := ev[x].(status := Submitted)];
      var q' := Again(q).(onDevice := q.onDevice + 1, dispatched := q.dispatched + {x});
      DrainMatches(q', ev');
      MatchSubmit(q, q', ev, ev');
    } else {
      var clear := !Waiting(ev[x]);
      DrainMatches(Moved(q.(flushed := q.flushed && clear)), ev);
      MatchMoves(q, ev, clear);
    }
  }

  // ----- What a scan does

  lemma DistinctTyped(q: Queue, ev: seq<Event>)
    requires QueueTyped(q, |ev|)
    ensures InRange(q.list, ev)
  {
  }

  /** The entry at position `k` is dispatched by a scan if and only if it was before, or it is queued and
      waits for nothing and nothing in front of it stops the scan: see `TakenIff`. */
  lemma DispatchedIff(q: Queue, ev: seq<Event>, ready: Option<EventId>, k: nat)
    requires QueueTyped(q, |ev|) && Distinct(q.list) && q.section == Pushing(0, true, 0, ready) && k < |q.list|
    ensures q.list[k] in Drain(q, ev).0.dispatched <==>
      || q.list[k] in q.dispatched
      || (&& ev[q.list[k]].status == Queued && ev[q.list[k]].waits == []
          && ((forall j :: 0 <= j < k ==> ev[q.list[j]].Done()) || (q.outOfOrder && ev[q.list[k]].kind != Barrier))
          && (forall j :: 0 <= j < k && !ev[q.list[j]].Done() ==>
                && (ev[q.list[j]].kind == Barrier ==> forall m :: 0 <= m < j ==> ev[q.list[m]].Done())
                && !(ev[q.list[j]].kind == WaitForEvents && ev[q.list[j]].status == Queued && ev[q.list[j]].waits != [])
                && !(ev[q.list[j]].kind != Command && ev[q.list[j]].status == Queued && ev[q.list[j]].waits == [])
                && (ready == Some(q.list[j]) ==> ev[q.list[j]].status == Queued && ev[q.list[j]].waits != []))
          && (ready.None? ==>
                |set j: nat | j < k && !ev[q.list[j]].Done()| +
                |set j: nat | j < k && ev[q.list[j]].status == Queued && ev[q.list[j]].waits == []
                              && ev[q.list[j]].kind == Command|
                <= 64))
  {
    var c := Rules(q.outOfOrder, ready, true, 0);
    ScanExact(q, ev, ready);
    TakenIff(q.outOfOrder, ready, q.list, ev, k);
    hide Drain, Taken, ScanIteration;
    if q.list[k] in TakenOf(c, q.list, ev) {
      var i :| 0 <= i < |q.list| && Taken(c, q.list, ev, i) && q.list[i] == q.list[k];
      assert i == k;
    }
    hide QueueTyped;
    assert q.list[k] in TakenOf(c, q.list, ev) <==> Taken(c, q.list, ev, k);
  }

  /** The scan, by way of the sweep of the whole list. */
  lemma ScanSwept(q: Queue, ev: seq<Event>, ready: Option<EventId>) returns (w: Swept)
    requires QueueTyped(q, |ev|) && Distinct(q.list) && q.section == Pushing(0, true, 0, ready)
    ensures InRange(q.list, ev) && Exact(Rules(q.outOfOrder, ready, true, 0), q.list, ev, w)
    ensures Drain(q, ev) == (Finished(q, [], w), HandedOver(ev, w.taken))
  {
    DistinctTyped(q, ev);
    DrainMatches(q, ev);
    var c := Rules(q.outOfOrder, ready, true, 0);
    assert RulesOf(q) == c && q.list[0..] == q.list && q.list[..0] == [];
    hide Drain, Sweep, Finished, HandedOver, Exact;
    w := Sweep(c, q.list, ev);
    SweepExact(c, q.list, ev);
  }

  /** What a scan dispatches and keeps: dispatched commands are submitted, no other event changes, and the
      list keeps, in order, the entries that do not leave it. */
  lemma ScanExact(q: Queue, ev: seq<Event>, ready: Option<EventId>)
    requires QueueTyped(q, |ev|) && Distinct(q.list) && q.section == Pushing(0, true, 0, ready)
    ensures InRange(q.list, ev)
    ensures var c, (r, ev') := Rules(q.outOfOrder, ready, true, 0), Drain(q, ev);
      && r.dispatched == q.dispatched + TakenOf(c, q.list, ev)
      && |ev'| == |ev|
      && (forall e | 0 <= e < |ev| ::
            var submitted := e in TakenOf(c, q.list, ev) && ev[e].kind == Command;
            ev'[e] == if submitted then ev[e].(status := Submitted) else ev[e])
      && Selected(q.list, KeptOf(c, q.list, ev), r.list)
  {
    hide Drain;
    var w := ScanSwept(q, ev, ready);
    SelectExact(q.list, KeptOf(Rules(q.outOfOrder, ready, true, 0), q.list, ev));
    hide Taken, Remains, TakenOf, KeptOf, Select, Selected, QueueTyped;
    assert [] + w.kept == w.kept;
  }

  /** What a scan leaves in the counters: the flush flag says that nothing was seen to remain, except that
      with a ready event or after an instantaneous one it says that the queue is empty; exactly then the
      sleeping threads are woken. */
  lemma ScanCounters(q: Queue, ev: seq<Event>, ready: Option<EventId>)
    requires QueueTyped(q, |ev|) && Distinct(q.list) && q.section == Pushing(0, true, 0, ready)
    ensures InRange(q.list, ev)
    ensures var c, r := Rules(q.outOfOrder, ready, true, 0), Drain(q, ev).0;
      var instant := TakesInstant(c, q.list, ev);
      var flushed := if instant then r.inQueue == 0
                     else q.flushed && NothingRemains(c, q.list, ev) && (ready.Some? ==> r.inQueue == 0);
      && r.inQueue == q.inQueue - |q.list| + |r.list|
      && r.completed == q.completed - |q.list| + |r.list| + (if instant then 1 else 0)
      && r.onDevice == q.onDevice + |TakenOf(c, q.list, ev)|
      && r.flushed == flushed
      && r.sleepers == (if flushed then 0 else q.sleepers)
      && r.woken == (if flushed then q.woken + q.sleepers else q.woken)
      && r.section == Free && r.pushes == q.pushes && r.accounted == q.accounted && r.outOfOrder == q.outOfOrder
  {
    hide Drain, TakesInstant, NothingRemains, TakenOf, KeptOf, Select;
    var w := ScanSwept(q, ev, ready);
    hide QueueTyped, HandedOver;
    assert [] + w.kept == w.kept;
  }

  // ----- What a scan leaves behind

  /** The list and the events after a scan without instantaneous dispatch: unfinished entries stay, and
      only the taken commands have changed. */
  ghost predicate Settles(list: seq<EventId>, ev: seq<Event>, taken: set<EventId>, idx: seq<nat>,
                          list': seq<EventId>, ev': seq<Event>)
    requires InRange(list, ev)
  {
    && |list'| == |idx| && |ev'| == |ev|
    && (forall a, b :: 0 <= a < b < |idx| ==> idx[a] < idx[b])
    && (forall k :: 0 <= k < |idx| ==> idx[k] < |list| && list'[k] == list[idx[k]])
    && (forall j: nat :: j < |list| && !ev[list[j]].Done() ==> j in idx)
    && (forall e | 0 <= e < |ev| ::
          ev'[e] == if e in taken && ev[e].kind == Command then ev[e].(status := Submitted) else ev[e])
  }

  /** Unfinished entries keep their relative positions. */
  lemma StaysBefore(list: seq<EventId>, ev: seq<Event>, taken: set<EventId>, idx: seq<nat>,
                    list': seq<EventId>, ev': seq<Event>, k: nat, j: nat) returns (j': nat)
    requires InRange(list, ev) && Settles(list, ev, taken, idx, list', ev')
    requires k < |idx| && j < idx[k] && !ev[list[j]].Done()
    ensures j' < k && idx[j'] == j && list'[j'] == list[j] && !ev'[list[j]].Done()
  {
    assert j in idx;
    j' :| 0 <= j' < |idx| && idx[j'] == j;
  }

  /** What a second scan would take was taken by the first. */
  lemma LeftIsTaken(outOfOrder: bool, list: seq<EventId>, ev: seq<Event>, taken: set<EventId>, idx: seq<nat>,
                    list': seq<EventId>, ev': seq<Event>, k: nat)
    requires InRange(list, ev) && Settles(list, ev, taken, idx, list', ev') && InRange(list', ev') && k < |list'|
    requires Taken(Rules(outOfOrder, None, true, 0), list', ev', k)
    requires VisitsOf(list, ev, idx[k]) <= 64
    ensures Taken(Rules(outOfOrder, None, true, 0), list, ev, idx[k])
  {
    TakenIff(outOfOrder, None, list', ev', k);
    TakenIff(outOfOrder, None, list, ev, idx[k]);
    VisitsCount(list, ev, idx[k]);
    hide Taken, VisitsOf;
    assert ev'[list'[k]] == ev[list[idx[k]]];
    if forall j :: 0 <= j < k ==> ev'[list'[j]].Done() {
      forall j: nat | j < idx[k] ensures ev[list[j]].Done() {
        if !ev[list[j]].Done() { var j' := StaysBefore(list, ev, taken, idx, list', ev', k, j); }
      }
    }
    forall j: nat | j < idx[k] && !ev[list[j]].Done()
      ensures ev[list[j]].kind == Barrier ==> forall m :: 0 <= m < j ==> ev[list[m]].Done()
      ensures !(ev[list[j]].kind == WaitForEvents && ev[list[j]].status == Queued && ev[list[j]].waits != [])
      ensures !(ev[list[j]].kind != Command && ev[list[j]].status == Queued && ev[list[j]].waits == [])
    {
      var j' := StaysBefore(list, ev, taken, idx, list', ev', k, j);
      if ev[list[j]].kind == Barrier {
        forall m: nat | m < j ensures ev[list[m]].Done() {
          if !ev[list[m]].Done() { var m' := StaysBefore(list, ev, taken, idx, list', ev', j', m); }
        }
      }
    }
  }

  /** The result of a scan without instantaneous dispatch, with the positions of what it kept. */
  lemma ScanSettles(q: Queue, ev: seq<Event>, ready: Option<EventId>) returns (idx: seq<nat>)
    requires QueueTyped(q, |ev|) && Distinct(q.list) && q.section == Pushing(0, true, 0, ready) && InRange(q.list, ev)
    requires !TakesInstant(Rules(q.outOfOrder, ready, true, 0), q.list, ev)
    ensures var c, (r, ev') := Rules(q.outOfOrder, ready, true, 0), Drain(q, ev);
      Settles(q.list, ev, TakenOf(c, q.list, ev), idx, r.list, ev')
  {
    hide Drain;
    var c := Rules(q.outOfOrder, ready, true, 0);
    var (r, ev') := Drain(q, ev);
    ScanExact(q, ev, ready);
    var keep := KeptOf(c, q.list, ev);
    forall j: nat | j < |q.list| && !ev[q.list[j]].Done() ensures j in keep {
      assert !(Taken(c, q.list, ev, j) && ev[q.list[j]].kind != Command);
    }
    hide Taken, TakenOf, KeptOf, QueueTyped, TakesInstant, Distinct;
    idx :| Lists(idx, keep, |q.list|) && |r.list| == |idx|
      && forall k :: 0 <= k < |r.list| ==> idx[k] < |q.list| && r.list[k] == q.list[idx[k]];
  }

  /** After a scan without ready event and without instantaneous dispatch that stays below the limit,
      nothing is left that a further scan would dispatch. */
  lemma NothingLeft(q: Queue, ev: seq<Event>, k: nat)
    requires QueueTyped(q, |ev|) && Distinct(q.list) && q.section == Pushing(0, true, 0, None) && InRange(q.list, ev)
    requires !TakesInstant(Rules(q.outOfOrder, None, true, 0), q.list, ev)
    requires VisitsOf(q.list, ev, |q.list|) <= 64 && k < |Drain(q, ev).0.list|
    ensures var (r, ev') := Drain(q, ev);
      InRange(r.list, ev') && !Taken(Rules(q.outOfOrder, None, true, 0), r.list, ev', k)
  {
    hide Drain;
    var c := Rules(q.outOfOrder, None, true, 0);
    var (r, ev') := Drain(q, ev);
    var idx := ScanSettles(q, ev, None);
    var taken := TakenOf(c, q.list, ev);
    assert InRange(r.list, ev') by { assert forall i :: 0 <= i < |r.list| ==> r.list[i] == q.list[idx[i]]; }
    VisitsGrow(q.list, ev, idx[k], |q.list|);
    hide VisitsOf, QueueTyped, Distinct;
    if Taken(c, r.list, ev', k) {
      LeftIsTaken(q.outOfOrder, q.list, ev, taken, idx, r.list, ev', k);
      TakenIff(q.outOfOrder, None, r.list, ev', k);
    }
  }

  /** A scan for a ready event stops at it: nothing behind it is dispatched, whatever a scan without ready
      event would do. */
  lemma ReadyCutsOff(outOfOrder: bool, list: seq<EventId>, ev: seq<Event>, j: nat, k: nat)
    requires InRange(list, ev) && j < k < |list|
    requires !ev[list[j]].Done() && !(ev[list[j]].status == Queued && ev[list[j]].waits != [])
    ensures !Taken(Rules(outOfOrder, Some(list[j]), true, 0), list, ev, k)
  {
    TakenIff(outOfOrder, Some(list[j]), list, ev, k);
  }
}
