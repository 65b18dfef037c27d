/** Selecting entries of a sequence by their positions. */
module Sequences {

  /** The entries at the positions in `keep`, in their order. */
  function Select<T>(xs: seq<T>, keep: set<nat>): seq<T> {
    if xs == [] then []
    else
      var last := |xs| - 1;
      Select(xs[..last], keep) + if last in keep then [xs[last]] else []
  }

  /** `idx` lists exactly the positions below `n` that are in `keep`, in increasing order. */
  ghost predicate Lists(idx: seq<nat>, keep: set<nat>, n: nat) {
    && (forall a, b :: 0 <= a < b < |idx| ==> idx[a] < idx[b])
    && (forall i: nat :: i in idx <==> i < n && i in keep)
  }

  /** `ys` is what stands in `xs` at the positions in `keep`, in increasing order. */
  ghost predicate Selected<T>(xs: seq<T>, keep: set<nat>, ys: seq<T>) {
    exists idx: seq<nat> ::
      Lists(idx, keep, |xs|) && |ys| == |idx| && forall k :: 0 <= k < |ys| ==> idx[k] < |xs| && ys[k] == xs[idx[k]]
  }

  lemma {:induction false} SelectExact<T>(xs: seq<T>, keep: set<nat>)
    ensures Selected(xs, keep, Select(xs, keep))
  {
    if xs == [] {
      var idx: seq<nat> := [];
      assert Lists(idx, keep, 0);
    } else {
      var last: nat := |xs| - 1;
      SelectExact(xs[..last], keep);
      var ys := Select(xs[..last], keep);
      assert Select(xs, keep) == ys + if last in keep then [xs[last]] else [];
      hide Select;
      SelectedSnoc(xs, keep, ys);
    }
  }

  lemma SelectedSnoc<T>(xs: seq<T>, keep: set<nat>, ys: seq<T>)
    requires xs != [] && Selected(xs[..|xs| - 1], keep, ys)
    ensures Selected(xs, keep, ys + if |xs| - 1 in keep then [xs[|xs| - 1]] else [])
  {
    var last: nat := |xs| - 1;
    var idx: seq<nat> :| Lists(idx, keep, last) && |ys| == |idx|
      && forall k :: 0 <= k < |ys| ==> idx[k] < last && ys[k] == xs[..last][idx[k]];
    var idx' := idx + if last in keep then [last] else [];
    ListsSnoc(idx, idx', keep, last);
    hide Lists;
    var ys' := ys + if last in keep then [xs[last]] else [];
    forall k | 0 <= k < |ys'| ensures idx'[k] < |xs| && ys'[k] == xs[idx'[k]] {
      if k < |ys| { assert ys'[k] == xs[..last][idx[k]]; }
    }
    assert Lists(idx', keep, |xs|);
  }

  lemma ListsSnoc(idx: seq<nat>, idx': seq<nat>, keep: set<nat>, n: nat)
    requires Lists(idx, keep, n) && idx' == idx + if n in keep then [n] else []
    ensures Lists(idx', keep, n + 1)
  {
    assert forall k :: 0 <= k < |idx| ==> idx[k] in idx;
    forall i: nat ensures i in idx' <==> i < n + 1 && i in keep {
      assert i in idx' <==> i in idx || (n in keep && i == n);
    }
  }

  lemma {:induction false} SelectCons<T>(x: T, xs: seq<T>, keep: set<nat>, later: set<nat>)
    requires forall i: nat :: i < |xs| ==> (i in later <==> i + 1 in keep)
    ensures Select([x] + xs, keep) == (if 0 in keep then [x] else []) + Select(xs, later)
  {
    var all := [x] + xs;
    if xs == [] {
      assert all[..0] == [];
    } else {
      var last := |xs| - 1;
      assert all[..|all| - 1] == [x] + xs[..last];
      SelectCons(x, xs[..last], keep, later);
    }
  }

  /** Only positions inside the sequence matter. */
  lemma {:induction false} SelectSame<T>(xs: seq<T>, keep: set<nat>, keep': set<nat>)
    requires forall i: nat :: i < |xs| ==> (i in keep <==> i in keep')
    ensures Select(xs, keep) == Select(xs, keep')
  {
    if xs != [] { SelectSame(xs[..|xs| - 1], keep, keep'); }
  }

  lemma {:induction false} SelectAll<T>(xs: seq<T>, keep: set<nat>)
    requires forall i: nat :: i < |xs| ==> i in keep
    ensures Select(xs, keep) == xs
  {
    if xs != [] { SelectAll(xs[..|xs| - 1], keep); }
  }

  lemma {:induction false} SelectTail<T>(xs: seq<T>, keep: set<nat>)
    requires xs != [] && 0 !in keep && forall i: nat :: 0 < i < |xs| ==> i in keep
    ensures Select(xs, keep) == xs[1..]
  {
    var init := xs[..|xs| - 1];
    if init == [] {
      assert Select(init, keep) == [];
    } else {
      SelectTail(init, keep);
    }
  }

  lemma Regroup<T>(a: seq<T>, b: seq<T>, c: seq<T>)
    ensures (a + b) + c == a + (b + c)
  {
  }
}
