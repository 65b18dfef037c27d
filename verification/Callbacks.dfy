/**
 Event callbacks: `Event::setCallback` calls at once or stores, `Event::setStatusHelper` calls the
 stored callbacks of the new status.  Statuses are the integers of cl.h: queued 3, submitted 2,
 running 1, complete 0, errors negative.
 */
module Callbacks {
  import opened Sequences

  const CL_COMPLETE := 0

  datatype Entry = Entry(at: int, id: nat)

  /** Status, stored callbacks, and the history of calls. */
  datatype View = View(status: int, stored: seq<Entry>, calls: seq<nat>)

  /** The key under which a status looks up its callbacks. */
  function Slot(status: int): int { if status > 0 then status else CL_COMPLETE }

  /** The callbacks stored for a slot, in order of registration. */
  function Stored(entries: seq<Entry>, slot: int): seq<nat> {
    if entries == [] then []
    else
      var last := entries[|entries| - 1];
      Stored(entries[..|entries| - 1], slot) + if last.at == slot then [last.id] else []
  }

  datatype Op = SetStatus(status: int) | SetCallback(at: int, id: nat)

  function Do(v: View, op: Op): View {
    match op
    case SetStatus(status) => v.(status := status, calls := v.calls + Stored(v.stored, Slot(status)))
    case SetCallback(at, id) =>
      if at >= v.status then v.(calls := v.calls + [id]) else v.(stored := v.stored + [Entry(at, id)])
  }

  function Run(v: View, ops: seq<Op>): View
    decreases |ops|
  {
    if ops == [] then v else Run(Do(v, ops[0]), ops[1..])
  }

  /** Every status change goes to a lower slot than the ones before. */
  predicate Descends(status: int, ops: seq<Op>) {
    if ops == [] then true
    else if ops[0].SetStatus? then Slot(ops[0].status) < Slot(status) && Descends(ops[0].status, ops[1..])
    else Descends(status, ops[1..])
  }

  /** The positions of the entries stored for `slot`. */
  function Positions(entries: seq<Entry>, slot: int): set<nat> {
    set i: nat | i < |entries| && entries[i].at == slot
  }

  predicate IdsAt(entries: seq<Entry>, calls: seq<nat>, idx: seq<nat>) {
    |calls| == |idx| && forall k :: 0 <= k < |calls| ==> idx[k] < |entries| && calls[k] == entries[idx[k]].id
  }

  /** `calls` are the ids of exactly the entries stored for `slot`, in order of registration. */
  ghost predicate InOrder(entries: seq<Entry>, slot: int, calls: seq<nat>) {
    exists idx: seq<nat> :: Lists(idx, Positions(entries, slot), |entries|) && IdsAt(entries, calls, idx)
  }

  lemma StoredInOrder(entries: seq<Entry>, slot: int)
    ensures InOrder(entries, slot, Stored(entries, slot))
  {
    var keep := Positions(entries, slot);
    assert forall i: nat :: i < |entries| ==> (i in keep <==> entries[i].at == slot);
    hide Positions, Lists, IdsAt, Stored;
    var idx := StoredAt(entries, slot, keep);
  }

  lemma {:induction false} StoredAt(entries: seq<Entry>, slot: int, keep: set<nat>) returns (idx: seq<nat>)
    requires forall i: nat :: i < |entries| ==> (i in keep <==> entries[i].at == slot)
    ensures Lists(idx, keep, |entries|) && IdsAt(entries, Stored(entries, slot), idx)
  {
    idx := [];
    if entries == [] {
      assert Lists(idx, keep, 0);
    } else {
      hide Lists;
      var last: nat := |entries| - 1;
      var before := StoredAt(entries[..last], slot, keep);
      idx := before + if last in keep then [last] else [];
      ListsSnoc(before, idx, keep, last);
      IdsSnoc(entries, Stored(entries[..last], slot), before, last in keep);
    }
  }

  lemma IdsSnoc(entries: seq<Entry>, calls: seq<nat>, idx: seq<nat>, more: bool)
    requires entries != [] && IdsAt(entries[..|entries| - 1], calls, idx)
    ensures var last: nat := |entries| - 1;
      IdsAt(entries, calls + (if more then [entries[last].id] else []), idx + if more then [last] else [])
  {
  }

  class Event {
    var status: int
    var stored: seq<Entry>
    ghost var calls: seq<nat>

    constructor (status: int)
      ensures Observe() == View(status, [], [])
    {
      this.status, stored, calls := status, [], [];
    }

    ghost function Observe(): View
      reads this
    {
      View(status, stored, calls)
    }

    method SetStatusHelper(status: int) returns (called: seq<nat>)
      modifies this
      ensures Observe() == Do(old(Observe()), SetStatus(status))
      ensures calls == old(calls) + called
      ensures this.status == status && stored == old(stored)
      ensures InOrder(old(stored), if status > 0 then status else 0, called)
    {
      this.status := status;
      var slot := if status > 0 then status else CL_COMPLETE;
      called := [];
      for i := 0 to |stored|
        invariant this.status == status && stored == old(stored) && calls == old(calls)
        invariant called == Stored(stored[..i], slot)
      {
        assert stored[..i + 1][..i] == stored[..i];
        if stored[i].at == slot { called := called + [stored[i].id]; }
      }
      assert stored[..|stored|] == stored;
      StoredInOrder(stored, slot);
      calls := calls + called;
    }

    method SetCallback(at: int, id: nat) returns (callNow: bool)
      modifies this
      ensures Observe() == Do(old(Observe()), Op.SetCallback(at, id))
      ensures callNow <==> at >= old(status)
      ensures status == old(status)
      ensures calls == old(calls) + (if callNow then [id] else [])
      ensures stored == old(stored) + (if callNow then [] else [Entry(at, id)])
    {
      callNow := at >= status;
      if callNow {
        calls := calls + [id];
      } else {
        stored := stored + [Entry(at, id)];
      }
    }
  }

  // ----- Exactly once

  ghost predicate Unknown(v: View, id: nat) {
    id !in v.calls && forall i :: 0 <= i < |v.stored| ==> v.stored[i].id != id
  }

  predicate Mentions(ops: seq<Op>, id: nat) {
    exists i :: 0 <= i < |ops| && ops[i].SetCallback? && ops[i].id == id
  }

  /** Some status change of `ops` looks up slot `at`. */
  predicate Takes(ops: seq<Op>, at: int) {
    exists i :: 0 <= i < |ops| && ops[i].SetStatus? && Slot(ops[i].status) == at
  }

  lemma StoredCount(entries: seq<Entry>, slot: int, id: nat)
    ensures (forall i :: 0 <= i < |entries| ==> entries[i].id != id) ==> multiset(Stored(entries, slot))[id] == 0
  {
    if entries != [] {
      StoredCount(entries[..|entries| - 1], slot, id);
    }
  }

  /** The single entry of `id` is found under its own slot and under no other. */
  lemma StoredOnce(entries: seq<Entry>, slot: int, k: nat)
    requires k < |entries| && forall i :: 0 <= i < |entries| && i != k ==> entries[i].id != entries[k].id
    ensures multiset(Stored(entries, slot))[entries[k].id] == if entries[k].at == slot then 1 else 0
  {
    var init := entries[..|entries| - 1];
    if k == |entries| - 1 {
      StoredCount(init, slot, entries[k].id);
    } else {
      StoredOnce(init, slot, k);
    }
  }

  /** Callbacks that are neither stored nor registered again are not called again. */
  lemma {:induction false} NeverAgain(v: View, ops: seq<Op>, id: nat)
    requires forall i :: 0 <= i < |v.stored| ==> v.stored[i].id != id
    requires !Mentions(ops, id)
    ensures multiset(Run(v, ops).calls)[id] == multiset(v.calls)[id]
    decreases |ops|
  {
    if ops != [] {
      assert forall i :: 0 <= i < |ops[1..]| ==> ops[1..][i] == ops[i + 1];
      if ops[0].SetStatus? { StoredCount(v.stored, Slot(ops[0].status), id); }
      NeverAgain(Do(v, ops[0]), ops[1..], id);
    }
  }

  /** No later slot is above the current one. */
  lemma {:induction false} TakesLower(status: int, ops: seq<Op>, at: int)
    requires Descends(status, ops) && at >= Slot(status)
    ensures !Takes(ops, at)
  {
    if ops != [] {
      TakesLower(if ops[0].SetStatus? then ops[0].status else status, ops[1..], at);
      TakesSplit(ops, at);
    }
  }

  lemma TakesSplit(ops: seq<Op>, at: int)
    requires ops != []
    ensures Takes(ops, at) <==> (ops[0].SetStatus? && Slot(ops[0].status) == at) || Takes(ops[1..], at)
  {
    if i :| 0 <= i < |ops| && ops[i].SetStatus? && Slot(ops[i].status) == at {
      if i > 0 { assert ops[1..][i - 1] == ops[i]; }
    }
    if i :| 0 <= i < |ops[1..]| && ops[1..][i].SetStatus? && Slot(ops[1..][i].status) == at {
      assert ops[i + 1] == ops[1..][i];
    }
  }

  /** A stored callback is called once if its status is still taken, and not at all otherwise. */
  lemma {:induction false} StoredFires(v: View, ops: seq<Op>, k: nat)
    requires k < |v.stored| && forall i :: 0 <= i < |v.stored| && i != k ==> v.stored[i].id != v.stored[k].id
    requires !Mentions(ops, v.stored[k].id) && Descends(v.status, ops)
    ensures multiset(Run(v, ops).calls)[v.stored[k].id] ==
            multiset(v.calls)[v.stored[k].id] + if Takes(ops, v.stored[k].at) then 1 else 0
    decreases |ops|
  {
    if ops != [] {
      var id, at := v.stored[k].id, v.stored[k].at;
      assert forall i :: 0 <= i < |ops[1..]| ==> ops[1..][i] == ops[i + 1];
      TakesSplit(ops, at);
      StoredFires(Do(v, ops[0]), ops[1..], k);
      if ops[0].SetStatus? {
        StoredOnce(v.stored, Slot(ops[0].status), k);
        if Slot(ops[0].status) == at { TakesLower(ops[0].status, ops[1..], at); }
      }
    }
  }

  /** A callback registered once, at any moment, is called exactly once if its status was reached by
      then or is taken later, and never otherwise. */
  lemma CallbackExactlyOnce(v: View, at: int, id: nat, ops: seq<Op>)
    requires Unknown(v, id) && !Mentions(ops, id) && Descends(v.status, ops)
    ensures multiset(Run(Do(v, SetCallback(at, id)), ops).calls)[id] ==
            if at >= v.status || Takes(ops, at) then 1 else 0
  {
    var w := Do(v, SetCallback(at, id));
    if at >= v.status {
      NeverAgain(w, ops, id);
    } else {
      StoredFires(w, ops, |v.stored|);
    }
  }
}
