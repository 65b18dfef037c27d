/**
 Which entries of a list a scan of `pushEventsOnDevice` reaches, dispatches and removes, stated over the
 positions of the list and the fields of the events, and a recursion over the list that computes it.
 */
module SchedulerSweep {
  import opened Wrappers
  import opened Sequences
  import opened SchedulerModel

  // ----- Reached and taken entries

  /** The circumstances of a scan: the queue's mode, the ready event, whether no unfinished entry was
      examined yet, and how many examinations there were. */
  datatype Rules = Rules(outOfOrder: bool, ready: Option<EventId>, first: bool, traversed: nat)

  predicate Able(e: Event) { e.status == Queued && e.waits == [] }

  predicate Waiting(e: Event) { e.status == Queued && e.waits != [] }

  /** How often a scan that goes on examines the event: a submitted one is met again. */
  function Visits(e: Event): nat { if e.Done() then 0 else if Able(e) && e.kind == Command then 2 else 1 }

  /** The examinations of the first `i` entries. */
  function VisitsOf(list: seq<EventId>, ev: seq<Event>, i: nat): nat
    requires InRange(list, ev) && i <= |list|
  {
    if i == 0 then 0 else VisitsOf(list, ev, i - 1) + Visits(ev[list[i - 1]])
  }

  predicate InRange(list: seq<EventId>, ev: seq<Event>) { forall i :: 0 <= i < |list| ==> list[i] < |ev| }

  predicate Within(c: Rules, n: nat) { c.ready.Some? || c.traversed + n <= 64 }

  /** Entry `i` is the first unfinished one. */
  predicate Leads(c: Rules, list: seq<EventId>, ev: seq<Event>, i: nat)
    requires InRange(list, ev) && i < |list|
  {
    c.first && forall j :: 0 <= j < i ==> ev[list[j]].Done()
  }

  /** The in-order rule, or a barrier that is not the first unfinished entry. */
  predicate Barred(c: Rules, list: seq<EventId>, ev: seq<Event>, i: nat)
    requires InRange(list, ev) && i < |list|
  {
    (!c.outOfOrder || ev[list[i]].kind == Barrier) && !Leads(c, list, ev, i)
  }

  /** The scan goes no further than the unfinished entry `i`: it is barred, a WaitForEvents event that
      waits, an able instantaneous event, any able event of an in-order queue, or the ready event in
      flight or just submitted. */
  predicate Ends(c: Rules, list: seq<EventId>, ev: seq<Event>, i: nat)
    requires InRange(list, ev) && i < |list|
  {
    var e := ev[list[i]];
    || Barred(c, list, ev, i)
    || (Waiting(e) && e.kind == WaitForEvents)
    || (Able(e) && (e.kind != Command || !c.outOfOrder))
    || (c.ready == Some(list[i]) && !Waiting(e))
  }

  /** The scan gets past entry `i`. */
  predicate Passes(c: Rules, list: seq<EventId>, ev: seq<Event>, i: nat)
    requires InRange(list, ev) && i < |list|
  {
    ev[list[i]].Done() || (!Ends(c, list, ev, i) && Within(c, VisitsOf(list, ev, i) + Visits(ev[list[i]]) - 1))
  }

  predicate Reached(c: Rules, list: seq<EventId>, ev: seq<Event>, i: nat)
    requires InRange(list, ev) && i < |list|
  {
    forall j :: 0 <= j < i ==> Passes(c, list, ev, j)
  }

  /** The scan looks at the unfinished entry `i` before the limit of 64 examinations stops it. */
  predicate Examined(c: Rules, list: seq<EventId>, ev: seq<Event>, i: nat)
    requires InRange(list, ev) && i < |list|
  {
    Reached(c, list, ev, i) && !ev[list[i]].Done() && Within(c, VisitsOf(list, ev, i))
  }

  /** Entry `i` is dispatched. */
  predicate Taken(c: Rules, list: seq<EventId>, ev: seq<Event>, i: nat)
    requires InRange(list, ev) && i < |list|
  {
    Examined(c, list, ev, i) && !Barred(c, list, ev, i) && Able(ev[list[i]])
  }

  /** Entry `i` leaves the list: it is complete, or dispatched as instantaneous. */
  predicate Leaves(c: Rules, list: seq<EventId>, ev: seq<Event>, i: nat)
    requires InRange(list, ev) && i < |list|
  {
    Reached(c, list, ev, i) && (ev[list[i]].Done() || (Taken(c, list, ev, i) && ev[list[i]].kind != Command))
  }

  /** Entry `i` shows that events remain to be submitted. */
  predicate Remains(c: Rules, list: seq<EventId>, ev: seq<Event>, i: nat)
    requires InRange(list, ev) && i < |list|
  {
    && Examined(c, list, ev, i)
    && (Barred(c, list, ev, i) || Waiting(ev[list[i]])
        || (!c.outOfOrder && Able(ev[list[i]]) && ev[list[i]].kind == Command && Within(c, VisitsOf(list, ev, i) + 1)))
  }

  /** An instantaneous entry is dispatched. */
  ghost predicate TakesInstant(c: Rules, list: seq<EventId>, ev: seq<Event>)
    requires InRange(list, ev)
  {
    exists i :: 0 <= i < |list| && Taken(c, list, ev, i) && ev[list[i]].kind != Command
  }

  /** No entry shows that events remain to be submitted. */
  ghost predicate NothingRemains(c: Rules, list: seq<EventId>, ev: seq<Event>)
    requires InRange(list, ev)
  {
    forall i :: 0 <= i < |list| ==> !Remains(c, list, ev, i)
  }

  function TakenOf(c: Rules, list: seq<EventId>, ev: seq<Event>): set<EventId>
    requires InRange(list, ev)
  {
    set i | 0 <= i < |list| && Taken(c, list, ev, i) :: list[i]
  }

  function KeptOf(c: Rules, list: seq<EventId>, ev: seq<Event>): set<nat>
    requires InRange(list, ev)
  {
    set i: nat | i < |list| && !Leaves(c, list, ev, i)
  }

  // ----- The scan as a recursion over the rest of the list

  /** `kept` is what stays in the list, `taken` what is dispatched, `dropped` the number of completed
      entries removed; `instant` says that the last dispatch was instantaneous, `clear` that no entry was
      seen to remain. */
  datatype Swept = Swept(kept: seq<EventId>, taken: set<EventId>, dropped: nat, instant: bool, clear: bool)

  function Sweep(c: Rules, list: seq<EventId>, ev: seq<Event>): Swept
    requires InRange(list, ev)
    decreases |list|
  {
    if list == [] then Swept([], {}, 0, false, true)
    else
      var x, e := list[0], ev[list[0]];
      var next := c.(first := false, traversed := c.traversed + Visits(e));
      if e.Done() then
        var w := Sweep(c, list[1..], ev);
        w.(dropped := w.dropped + 1)
      else if !Within(c, 0) then Swept(list, {}, 0, false, true)
      else if (!c.outOfOrder || e.kind == Barrier) && !c.first then Swept(list, {}, 0, false, false)
      else if Waiting(e) then
        if e.kind == WaitForEvents then Swept(list, {}, 0, false, false)
        else
          var w := Sweep(next, list[1..], ev);
          w.(kept := [x] + w.kept, clear := false)
      else if Able(e) && e.kind != Command then Swept(list[1..], {x}, 0, true, true)
      else if Able(e) then
        if !Within(c, 1) then Swept(list, {x}, 0, false, true)
        else if !c.outOfOrder then Swept(list, {x}, 0, false, false)
        else if c.ready == Some(x) then Swept(list, {x}, 0, false, true)
        else
          var w := Sweep(next, list[1..], ev);
          w.(kept := [x] + w.kept, taken := {x} + w.taken)
      else if c.ready == Some(x) then Swept(list, {}, 0, false, true)
      else
        var w := Sweep(next, list[1..], ev);
        w.(kept := [x] + w.kept)
  }

  // ----- The recursion takes and keeps what the positions say

  /** The circumstances after the event `e` was passed. */
  function After(c: Rules, e: Event): Rules {
    if e.Done() then c else c.(first := false, traversed := c.traversed + Visits(e))
  }

  lemma {:induction false} ShiftVisits(list: seq<EventId>, ev: seq<Event>, i: nat)
    requires InRange(list, ev) && 0 < |list| && i < |list|
    ensures VisitsOf(list, ev, i + 1) == Visits(ev[list[0]]) + VisitsOf(list[1..], ev, i)
  {
    if i > 0 { ShiftVisits(list, ev, i - 1); }
  }

  lemma Shift(c: Rules, list: seq<EventId>, ev: seq<Event>, i: nat)
    requires InRange(list, ev) && i + 1 < |list|
    ensures var c', rest := After(c, ev[list[0]]), list[1..];
      && Leads(c, list, ev, i + 1) == Leads(c', rest, ev, i)
      && Barred(c, list, ev, i + 1) == Barred(c', rest, ev, i)
      && Ends(c, list, ev, i + 1) == Ends(c', rest, ev, i)
      && Passes(c, list, ev, i + 1) == Passes(c', rest, ev, i)
      && Within(c, VisitsOf(list, ev, i + 1)) == Within(c', VisitsOf(rest, ev, i))
      && Within(c, VisitsOf(list, ev, i + 1) + 1) == Within(c', VisitsOf(rest, ev, i) + 1)
  {
    ShiftVisits(list, ev, i);
    var rest := list[1..];
    assert rest[i] == list[i + 1] && forall j :: 0 <= j < i ==> rest[j] == list[j + 1];
    if Leads(After(c, ev[list[0]]), rest, ev, i) {
      forall j | 0 <= j < i + 1 ensures ev[list[j]].Done() {
        if j > 0 { assert ev[rest[j - 1]].Done(); }
      }
    }
  }

  lemma ShiftReached(c: Rules, list: seq<EventId>, ev: seq<Event>, i: nat)
    requires InRange(list, ev) && i + 1 < |list|
    ensures var c', rest := After(c, ev[list[0]]), list[1..];
      Reached(c, list, ev, i + 1) <==> Passes(c, list, ev, 0) && Reached(c', rest, ev, i)
  {
    var c', rest := After(c, ev[list[0]]), list[1..];
    forall j: nat | j < i ensures Passes(c, list, ev, j + 1) == Passes(c', rest, ev, j) { Shift(c, list, ev, j); }
    if Passes(c, list, ev, 0) && Reached(c', rest, ev, i) {
      forall j | 0 <= j < i + 1 ensures Passes(c, list, ev, j) {
        if j > 0 { assert Passes(c', rest, ev, j - 1); }
      }
    }
  }

  lemma ShiftTaken(c: Rules, list: seq<EventId>, ev: seq<Event>, i: nat)
    requires InRange(list, ev) && i + 1 < |list|
    ensures var c', rest, p := After(c, ev[list[0]]), list[1..], Passes(c, list, ev, 0);
      && (Taken(c, list, ev, i + 1) <==> p && Taken(c', rest, ev, i))
      && (Leaves(c, list, ev, i + 1) <==> p && Leaves(c', rest, ev, i))
      && (Remains(c, list, ev, i + 1) <==> p && Remains(c', rest, ev, i))
  {
    Shift(c, list, ev, i);
    ShiftReached(c, list, ev, i);
    hide Reached, Barred, Within, VisitsOf, Passes;
  }

  /** What a sweep must have done. */
  ghost predicate Exact(c: Rules, list: seq<EventId>, ev: seq<Event>, w: Swept)
    requires InRange(list, ev)
  {
    && w.taken == TakenOf(c, list, ev)
    && w.kept == Select(list, KeptOf(c, list, ev))
    && (w.instant <==> TakesInstant(c, list, ev))
    && (!w.instant ==> (w.clear <==> NothingRemains(c, list, ev)))
    && |list| == |w.kept| + w.dropped + if w.instant then 1 else 0
  }

  /** Behind an entry that is not passed nothing happens. */
  lemma NoneBehind(c: Rules, list: seq<EventId>, ev: seq<Event>, i: nat)
    requires InRange(list, ev) && 1 <= i < |list| && !Passes(c, list, ev, 0)
    ensures !Taken(c, list, ev, i) && !Leaves(c, list, ev, i) && !Remains(c, list, ev, i)
  {
    ShiftTaken(c, list, ev, i - 1);
  }

  lemma StopTaken(c: Rules, list: seq<EventId>, ev: seq<Event>)
    requires InRange(list, ev) && list != [] && !Passes(c, list, ev, 0)
    ensures TakenOf(c, list, ev) == if Taken(c, list, ev, 0) then {list[0]} else {}
  {
    hide Taken, Passes;
    forall i: nat | 1 <= i < |list| ensures !Taken(c, list, ev, i) { NoneBehind(c, list, ev, i); }
    forall x | x in TakenOf(c, list, ev) ensures Taken(c, list, ev, 0) && x == list[0] {
      var i :| 0 <= i < |list| && Taken(c, list, ev, i) && list[i] == x;
    }
    assert Taken(c, list, ev, 0) ==> list[0] in TakenOf(c, list, ev);
  }

  lemma StopKept(c: Rules, list: seq<EventId>, ev: seq<Event>)
    requires InRange(list, ev) && list != [] && !Passes(c, list, ev, 0)
    ensures Select(list, KeptOf(c, list, ev)) == if Leaves(c, list, ev, 0) then list[1..] else list
  {
    hide Leaves, Passes, Select;
    forall i: nat | 1 <= i < |list| ensures !Leaves(c, list, ev, i) { NoneBehind(c, list, ev, i); }
    if Leaves(c, list, ev, 0) {
      SelectTail(list, KeptOf(c, list, ev));
    } else {
      SelectAll(list, KeptOf(c, list, ev));
    }
  }

  /** Behind an entry that is passed, the rest of the list decides. */
  ghost predicate Shifted(c: Rules, list: seq<EventId>, ev: seq<Event>)
    requires InRange(list, ev) && list != []
  {
    var c', rest := After(c, ev[list[0]]), list[1..];
    && (forall i :: 1 <= i < |list| ==> Taken(c, list, ev, i) == Taken(c', rest, ev, i - 1))
    && (forall i :: 1 <= i < |list| ==> Remains(c, list, ev, i) == Remains(c', rest, ev, i - 1))
  }

  lemma NextShifted(c: Rules, list: seq<EventId>, ev: seq<Event>)
    requires InRange(list, ev) && list != [] && Passes(c, list, ev, 0)
    ensures Shifted(c, list, ev)
  {
    hide Taken, Remains, Passes;
    forall i: nat | 1 <= i < |list|
      ensures Taken(c, list, ev, i) == Taken(After(c, ev[list[0]]), list[1..], ev, i - 1)
      ensures Remains(c, list, ev, i) == Remains(After(c, ev[list[0]]), list[1..], ev, i - 1)
    {
      ShiftTaken(c, list, ev, i - 1);
    }
  }

  lemma NextKept(c: Rules, list: seq<EventId>, ev: seq<Event>)
    requires InRange(list, ev) && list != [] && Passes(c, list, ev, 0)
    ensures var c', rest := After(c, ev[list[0]]), list[1..];
      Select(list, KeptOf(c, list, ev)) ==
      (if Leaves(c, list, ev, 0) then [] else [list[0]]) + Select(rest, KeptOf(c', rest, ev))
  {
    hide Leaves, Passes, Select;
    var c', rest := After(c, ev[list[0]]), list[1..];
    assert list == [list[0]] + rest;
    forall i: nat | i < |rest| ensures i in KeptOf(c', rest, ev) <==> i + 1 in KeptOf(c, list, ev) {
      ShiftTaken(c, list, ev, i);
    }
    assert 0 in KeptOf(c, list, ev) <==> !Leaves(c, list, ev, 0);
    hide KeptOf;
    SelectCons(list[0], rest, KeptOf(c, list, ev), KeptOf(c', rest, ev));
  }

  lemma NextExact(c: Rules, list: seq<EventId>, ev: seq<Event>)
    requires InRange(list, ev) && list != [] && Passes(c, list, ev, 0)
    ensures var c', rest := After(c, ev[list[0]]), list[1..];
      && TakenOf(c, list, ev) == (if Taken(c, list, ev, 0) then {list[0]} else {}) + TakenOf(c', rest, ev)
      && Select(list, KeptOf(c, list, ev)) ==
         (if Leaves(c, list, ev, 0) then [] else [list[0]]) + Select(rest, KeptOf(c', rest, ev))
    ensures Shifted(c, list, ev)
  {
    hide Taken, Leaves, Remains, Passes, Select, KeptOf, TakenOf;
    NextShifted(c, list, ev);
    NextKept(c, list, ev);
    TakenCons(c, list, ev);
  }

  lemma TakenCons(c: Rules, list: seq<EventId>, ev: seq<Event>)
    requires InRange(list, ev) && list != []
    requires forall i :: 1 <= i < |list| ==>
      Taken(c, list, ev, i) == Taken(After(c, ev[list[0]]), list[1..], ev, i - 1)
    ensures TakenOf(c, list, ev) ==
            (if Taken(c, list, ev, 0) then {list[0]} else {}) + TakenOf(After(c, ev[list[0]]), list[1..], ev)
  {
    hide Taken;
    var c', rest := After(c, ev[list[0]]), list[1..];
    forall x | x in TakenOf(c, list, ev)
      ensures x in (if Taken(c, list, ev, 0) then {list[0]} else {}) + TakenOf(c', rest, ev)
    {
      var i :| 0 <= i < |list| && Taken(c, list, ev, i) && list[i] == x;
      if i > 0 { assert Taken(c', rest, ev, i - 1) && rest[i - 1] == x; }
    }
    forall x | x in TakenOf(c', rest, ev) ensures x in TakenOf(c, list, ev) {
      var i :| 0 <= i < |rest| && Taken(c', rest, ev, i) && rest[i] == x;
      assert Taken(c, list, ev, i + 1) && list[i + 1] == x;
    }
  }

  /** Position 0 decides what the sweep does with the first entry. */
  lemma HeadFacts(c: Rules, list: seq<EventId>, ev: seq<Event>)
    requires InRange(list, ev) && list != [] && !ev[list[0]].Done()
    ensures var e := ev[list[0]];
      var barred := (!c.outOfOrder || e.kind == Barrier) && !c.first;
      var ends := barred || (Waiting(e) && e.kind == WaitForEvents) || (Able(e) && (e.kind != Command || !c.outOfOrder))
                  || (c.ready == Some(list[0]) && !Waiting(e));
      && (Passes(c, list, ev, 0) <==> !ends && Within(c, Visits(e) - 1))
      && (Taken(c, list, ev, 0) <==> Within(c, 0) && !barred && Able(e))
      && (Leaves(c, list, ev, 0) <==> Taken(c, list, ev, 0) && e.kind != Command)
      && (Remains(c, list, ev, 0) <==>
            Within(c, 0) && (barred || Waiting(e) || (!c.outOfOrder && Able(e) && e.kind == Command && Within(c, 1))))
  {
    assert VisitsOf(list, ev, 0) == 0;
  }

  lemma {:induction false} SweepExact(c: Rules, list: seq<EventId>, ev: seq<Event>)
    requires InRange(list, ev)
    ensures Exact(c, list, ev, Sweep(c, list, ev))
    decreases |list|
  {
    if list == [] {
      assert Select(list, KeptOf(c, list, ev)) == [];
    } else if ev[list[0]].Done() {
      SweepExact(c, list[1..], ev);
      SweepDone(c, list, ev);
    } else if Passes(c, list, ev, 0) {
      SweepExact(After(c, ev[list[0]]), list[1..], ev);
      SweepPasses(c, list, ev);
    } else {
      SweepStops(c, list, ev);
    }
  }

  lemma SweepStops(c: Rules, list: seq<EventId>, ev: seq<Event>)
    requires InRange(list, ev) && list != [] && !ev[list[0]].Done() && !Passes(c, list, ev, 0)
    ensures Exact(c, list, ev, Sweep(c, list, ev))
  {
    HeadFacts(c, list, ev);
    var w := Sweep(c, list, ev);
    assert w == Swept(if Leaves(c, list, ev, 0) then list[1..] else list,
                      if Taken(c, list, ev, 0) then {list[0]} else {}, 0, Leaves(c, list, ev, 0), w.clear);
    assert !w.instant ==> (w.clear <==> !Remains(c, list, ev, 0));
    assert Leaves(c, list, ev, 0) <==> Taken(c, list, ev, 0) && ev[list[0]].kind != Command;
    hide Sweep, Passes, Taken, Leaves, Remains, KeptOf, TakenOf, Select, Within, Visits;
    StopTaken(c, list, ev);
    StopKept(c, list, ev);
    forall i: nat | 1 <= i < |list| ensures !Taken(c, list, ev, i) && !Remains(c, list, ev, i) {
      NoneBehind(c, list, ev, i);
    }
  }

  lemma SweepPasses(c: Rules, list: seq<EventId>, ev: seq<Event>)
    requires InRange(list, ev) && list != [] && !ev[list[0]].Done() && Passes(c, list, ev, 0)
    requires var c', rest := After(c, ev[list[0]]), list[1..]; Exact(c', rest, ev, Sweep(c', rest, ev))
    ensures Exact(c, list, ev, Sweep(c, list, ev))
  {
    HeadFacts(c, list, ev);
    NextExact(c, list, ev);
    var c', rest := After(c, ev[list[0]]), list[1..];
    var w, w' := Sweep(c, list, ev), Sweep(c', rest, ev);
    assert w == w'.(kept := [list[0]] + w'.kept, taken := (if Able(ev[list[0]]) then {list[0]} else {}) + w'.taken,
                    clear := w'.clear && !Waiting(ev[list[0]]));
    hide Sweep, Passes, Taken, Leaves, Remains, KeptOf, TakenOf, Select, Shifted, Exact, After;
    ExactCons(c, list, ev, w, w');
  }

  lemma SweepDone(c: Rules, list: seq<EventId>, ev: seq<Event>)
    requires InRange(list, ev) && list != [] && ev[list[0]].Done()
    requires Exact(c, list[1..], ev, Sweep(c, list[1..], ev))
    ensures Exact(c, list, ev, Sweep(c, list, ev))
  {
    DoneFacts(c, list, ev);
    hide Passes, Taken, Leaves, Remains, KeptOf, TakenOf, Select, Shifted, Exact;
    NextExact(c, list, ev);
    var w, w' := Sweep(c, list, ev), Sweep(c, list[1..], ev);
    assert w == w'.(dropped := w'.dropped + 1) && After(c, ev[list[0]]) == c;
    hide Sweep, After;
    ExactCons(c, list, ev, w, w');
  }

  lemma DoneFacts(c: Rules, list: seq<EventId>, ev: seq<Event>)
    requires InRange(list, ev) && list != [] && ev[list[0]].Done()
    ensures Passes(c, list, ev, 0) && !Taken(c, list, ev, 0) && Leaves(c, list, ev, 0) && !Remains(c, list, ev, 0)
  {
  }

  lemma InstantCons(c: Rules, list: seq<EventId>, ev: seq<Event>)
    requires InRange(list, ev) && list != [] && Shifted(c, list, ev)
    requires !(Taken(c, list, ev, 0) && ev[list[0]].kind != Command)
    ensures var c', rest := After(c, ev[list[0]]), list[1..];
      (exists i :: 0 <= i < |list| && Taken(c, list, ev, i) && ev[list[i]].kind != Command) <==>
      (exists i :: 0 <= i < |rest| && Taken(c', rest, ev, i) && ev[rest[i]].kind != Command)
  {
    hide Taken, Remains;
    var c', rest := After(c, ev[list[0]]), list[1..];
    if i :| 0 <= i < |list| && Taken(c, list, ev, i) && ev[list[i]].kind != Command {
      assert Taken(c', rest, ev, i - 1) && rest[i - 1] == list[i];
    }
    if i :| 0 <= i < |rest| && Taken(c', rest, ev, i) && ev[rest[i]].kind != Command {
      assert Taken(c, list, ev, i + 1) && rest[i] == list[i + 1];
    }
  }

  lemma RemainsCons(c: Rules, list: seq<EventId>, ev: seq<Event>)
    requires InRange(list, ev) && list != [] && Shifted(c, list, ev)
    ensures var c', rest := After(c, ev[list[0]]), list[1..];
      (forall i :: 0 <= i < |list| ==> !Remains(c, list, ev, i)) <==>
      !Remains(c, list, ev, 0) && forall i :: 0 <= i < |rest| ==> !Remains(c', rest, ev, i)
  {
    hide Taken, Remains;
    var c', rest := After(c, ev[list[0]]), list[1..];
    if forall i :: 0 <= i < |list| ==> !Remains(c, list, ev, i) {
      forall i | 0 <= i < |rest| ensures !Remains(c', rest, ev, i) { assert !Remains(c, list, ev, i + 1); }
    }
  }

  /** From the tail to the whole list. */
  lemma ExactCons(c: Rules, list: seq<EventId>, ev: seq<Event>, w: Swept, w': Swept)
    requires InRange(list, ev) && list != [] && Shifted(c, list, ev)
    requires var c', rest := After(c, ev[list[0]]), list[1..];
      && Exact(c', rest, ev, w')
      && TakenOf(c, list, ev) == (if Taken(c, list, ev, 0) then {list[0]} else {}) + TakenOf(c', rest, ev)
      && Select(list, KeptOf(c, list, ev)) ==
         (if Leaves(c, list, ev, 0) then [] else [list[0]]) + Select(rest, KeptOf(c', rest, ev))
    requires !(Taken(c, list, ev, 0) && ev[list[0]].kind != Command)
    requires w.taken == (if Taken(c, list, ev, 0) then {list[0]} else {}) + w'.taken
    requires w.kept == (if Leaves(c, list, ev, 0) then [] else [list[0]]) + w'.kept
    requires w.dropped == w'.dropped + if Leaves(c, list, ev, 0) then 1 else 0
    requires w.instant == w'.instant && w.clear == (w'.clear && !Remains(c, list, ev, 0))
    ensures Exact(c, list, ev, w)
  {
    InstantCons(c, list, ev);
    RemainsCons(c, list, ev);
    hide Taken, Leaves, Remains, KeptOf, TakenOf, Select, Shifted;
  }

  // ----- The condition in full

  lemma {:induction false} VisitsCount(list: seq<EventId>, ev: seq<Event>, i: nat)
    requires InRange(list, ev) && i <= |list|
    ensures VisitsOf(list, ev, i) ==
      |set j: nat | j < i && !ev[list[j]].Done()| +
      |set j: nat | j < i && ev[list[j]].status == Queued && ev[list[j]].waits == [] && ev[list[j]].kind == Command|
  {
    if i > 0 {
      VisitsCount(list, ev, i - 1);
      OpenSnoc(list, ev, i - 1);
      AbleSnoc(list, ev, i - 1);
    }
  }

  lemma OpenSnoc(list: seq<EventId>, ev: seq<Event>, k: nat)
    requires InRange(list, ev) && k < |list|
    ensures |set j: nat | j < k + 1 && !ev[list[j]].Done()| ==
            |set j: nat | j < k && !ev[list[j]].Done()| + if ev[list[k]].Done() then 0 else 1
  {
    var before := set j: nat | j < k && !ev[list[j]].Done();
    var after := set j: nat | j < k + 1 && !ev[list[j]].Done();
    assert after == before + if ev[list[k]].Done() then {} else {k};
  }

  lemma AbleSnoc(list: seq<EventId>, ev: seq<Event>, k: nat)
    requires InRange(list, ev) && k < |list|
    ensures
      |set j: nat |
        j < k + 1 && ev[list[j]].status == Queued && ev[list[j]].waits == [] && ev[list[j]].kind == Command| ==
      |set j: nat | j < k && ev[list[j]].status == Queued && ev[list[j]].waits == [] && ev[list[j]].kind == Command| +
      if Able(ev[list[k]]) && ev[list[k]].kind == Command then 1 else 0
  {
    var before := set j: nat |
      j < k && ev[list[j]].status == Queued && ev[list[j]].waits == [] && ev[list[j]].kind == Command;
    var after := set j: nat |
      j < k + 1 && ev[list[j]].status == Queued && ev[list[j]].waits == [] && ev[list[j]].kind == Command;
    assert after == before + if Able(ev[list[k]]) && ev[list[k]].kind == Command then {k} else {};
  }

  lemma {:induction false} VisitsGrow(list: seq<EventId>, ev: seq<Event>, j: nat, i: nat)
    requires InRange(list, ev) && j < i <= |list|
    ensures VisitsOf(list, ev, j) + Visits(ev[list[j]]) <= VisitsOf(list, ev, i)
  {
    if j < i - 1 { VisitsGrow(list, ev, j, i - 1); }
  }

  /** Within the limit, an entry is reached exactly if no unfinished entry before it ends the scan. */
  lemma ReachedIff(c: Rules, list: seq<EventId>, ev: seq<Event>, i: nat)
    requires InRange(list, ev) && i < |list| && Within(c, VisitsOf(list, ev, i))
    ensures Reached(c, list, ev, i) <==> forall j :: 0 <= j < i && !ev[list[j]].Done() ==> !Ends(c, list, ev, j)
  {
    forall j: nat | j < i && !ev[list[j]].Done()
      ensures Within(c, VisitsOf(list, ev, j) + Visits(ev[list[j]]) - 1)
    {
      VisitsGrow(list, ev, j, i);
    }
    hide Ends, VisitsOf, Visits, Within;
    forall j: nat | j < i ensures Passes(c, list, ev, j) <==> ev[list[j]].Done() || !Ends(c, list, ev, j) {}
    hide Passes;
    if forall j :: 0 <= j < i && !ev[list[j]].Done() ==> !Ends(c, list, ev, j) {
      forall j | 0 <= j < i ensures Passes(c, list, ev, j) {}
    }
    if Reached(c, list, ev, i) {
      forall j | 0 <= j < i && !ev[list[j]].Done() ensures !Ends(c, list, ev, j) { assert Passes(c, list, ev, j); }
    }
  }

  /** An entry is dispatched if and only if it is queued and waits for nothing; it is the first unfinished
      entry, or the queue is out of order and it is no barrier; no unfinished entry before it is a barrier
      that is not first, a WaitForEvents event that waits, an instantaneous event that does not wait, or
      the ready event itself unless it waits; and, without a ready event, at most 64 examinations came
      before it, where a command that was submitted counts twice. */
  lemma TakenIff(outOfOrder: bool, ready: Option<EventId>, list: seq<EventId>, ev: seq<Event>, k: nat)
    requires InRange(list, ev) && k < |list|
    ensures Taken(Rules(outOfOrder, ready, true, 0), list, ev, k) <==>
      && ev[list[k]].status == Queued && ev[list[k]].waits == []
      && ((forall j :: 0 <= j < k ==> ev[list[j]].Done()) || (outOfOrder && ev[list[k]].kind != Barrier))
      && (forall j :: 0 <= j < k && !ev[list[j]].Done() ==>
            && (ev[list[j]].kind == Barrier ==> forall m :: 0 <= m < j ==> ev[list[m]].Done())
            && !(ev[list[j]].kind == WaitForEvents && ev[list[j]].status == Queued && ev[list[j]].waits != [])
            && !(ev[list[j]].kind != Command && ev[list[j]].status == Queued && ev[list[j]].waits == [])
            && (ready == Some(list[j]) ==> ev[list[j]].status == Queued && ev[list[j]].waits != []))
      && (ready.None? ==>
            |set j: nat | j < k && !ev[list[j]].Done()| +
            |set j: nat | j < k && ev[list[j]].status == Queued && ev[list[j]].waits == []
                          && ev[list[j]].kind == Command|
            <= 64)
  {
    var c := Rules(outOfOrder, ready, true, 0);
    VisitsCount(list, ev, k);
    if Within(c, VisitsOf(list, ev, k)) {
      ReachedIff(c, list, ev, k);
      hide Reached, VisitsOf;
    }
  }

  /** A completed entry is removed if and only if every unfinished entry before it is passed: the queue is
      out of order or that entry does not go to the device in this scan; it is no barrier that is not
      first, no WaitForEvents event that waits, no instantaneous event that does not wait, not the ready
      event unless it waits; and, without a ready event, the limit of 64 was not met at it. */
  lemma CompletedLeavesIff(outOfOrder: bool, ready: Option<EventId>, list: seq<EventId>, ev: seq<Event>, k: nat)
    requires InRange(list, ev) && k < |list| && ev[list[k]].Done()
    ensures Leaves(Rules(outOfOrder, ready, true, 0), list, ev, k) <==>
      forall j :: 0 <= j < k && !ev[list[j]].Done() ==>
        && ((forall m :: 0 <= m < j ==> ev[list[m]].Done()) || (outOfOrder && ev[list[j]].kind != Barrier))
        && (ev[list[j]].status == Queued && ev[list[j]].waits == [] ==> outOfOrder && ev[list[j]].kind == Command)
        && !(ev[list[j]].kind == WaitForEvents && ev[list[j]].status == Queued && ev[list[j]].waits != [])
        && (ready == Some(list[j]) ==> ev[list[j]].status == Queued && ev[list[j]].waits != [])
        && (ready.None? ==> VisitsOf(list, ev, j + 1) <= 65)
  {
    var c := Rules(outOfOrder, ready, true, 0);
    assert Leaves(c, list, ev, k) <==> Reached(c, list, ev, k);
    hide Leaves;
    forall j: nat | j < k && !ev[list[j]].Done()
      ensures Passes(c, list, ev, j) <==>
        && ((forall m :: 0 <= m < j ==> ev[list[m]].Done()) || (outOfOrder && ev[list[j]].kind != Barrier))
        && (ev[list[j]].status == Queued && ev[list[j]].waits == [] ==> outOfOrder && ev[list[j]].kind == Command)
        && !(ev[list[j]].kind == WaitForEvents && ev[list[j]].status == Queued && ev[list[j]].waits != [])
        && (ready == Some(list[j]) ==> ev[list[j]].status == Queued && ev[list[j]].waits != [])
        && (ready.None? ==> VisitsOf(list, ev, j + 1) <= 65)
    {
      assert VisitsOf(list, ev, j + 1) == VisitsOf(list, ev, j) + Visits(ev[list[j]]);
    }
    forall j: nat | j < k && ev[list[j]].Done() ensures Passes(c, list, ev, j) {}
    hide Passes, VisitsOf;
  }
}
