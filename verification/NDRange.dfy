/**
 The index space of a kernel event: the checks of the `KernelEvent` constructor and the work-item
 functions of the device, dimension by dimension.
 */
module NDRange {
  import opened Wrappers
  import opened Arithmetic

  datatype Error = InvalidWorkDimension | InvalidGlobalWorkSize | InvalidWorkGroupSize | InvalidWorkItemSize

  datatype Range = Range(offset: seq<nat>, global: seq<nat>, local: seq<nat>)

  datatype Result = Ok(range: Range) | Err(error: Error)

  function Product(xs: seq<nat>): nat {
    if xs == [] then 1 else Product(xs[..|xs| - 1]) * xs[|xs| - 1]
  }

  lemma ProductNone(xs: seq<nat>)
    requires xs == []
    ensures Product(xs) == 1
  {
  }

  lemma ProductSnoc(xs: seq<nat>, i: nat)
    requires i < |xs|
    ensures Product(xs[..i + 1]) == Product(xs[..i]) * xs[i]
  {
    assert xs[..i + 1][..i] == xs[..i];
  }

  /** `Product` is multiplication, for any number of factors. */
  lemma {:induction false} ProductLaws(xs: seq<nat>, ys: seq<nat>, a: nat)
    ensures Product([]) == 1 && Product([a]) == a
    ensures Product(xs + ys) == Product(xs) * Product(ys)
  {
    assert [a][..0] == [];
    if ys == [] {
      assert xs + ys == xs;
    } else {
      var init, last := ys[..|ys| - 1], ys[|ys| - 1];
      assert (xs + ys)[..|xs + ys| - 1] == xs + init;
      ProductLaws(xs, init, a);
      assert Product(xs) * (Product(init) * last) == (Product(xs) * Product(init)) * last;
    }
  }

  function Padded(xs: seq<nat>, dims: nat, filler: nat): (r: seq<nat>)
    requires |xs| <= dims
    ensures |r| == dims && r[..|xs|] == xs && forall i :: |xs| <= i < dims ==> r[i] == filler
  {
    xs + seq(dims - |xs|, _ => filler)
  }

  /** What the constructor accepts with explicit local sizes. */
  predicate Acceptable(dims: nat, maxDims: nat, global: seq<nat>, local: seq<nat>, maxItems: seq<nat>, maxGroup: nat)
    requires |global| == |local| == dims && |maxItems| == maxDims
    requires forall i :: 0 <= i < dims ==> local[i] > 0
  {
    && 0 < dims <= maxDims
    && (forall i :: 0 <= i < dims ==> global[i] > 0 && global[i] % local[i] == 0 && local[i] <= maxItems[i])
    && Product(local) <= maxGroup
  }

  /** The dimensions below `n` pass the checks of the loop. */
  predicate PassesBelow(global: seq<nat>, local: seq<nat>, maxItems: seq<nat>, n: nat)
    requires n <= |global| == |local| <= |maxItems| && forall i :: 0 <= i < |local| ==> local[i] > 0
  {
    forall j :: 0 <= j < n ==> global[j] % local[j] == 0 && local[j] <= maxItems[j]
  }

  /** The constructor checks.  A zero global size is noted without leaving the loop, so a later
      error replaces it. */
  method CheckRange(dims: nat, maxDims: nat, offset: Option<seq<nat>>, global: seq<nat>, local: seq<nat>,
                    maxItems: seq<nat>, maxGroup: nat)
    returns (r: Result)
    requires |global| == |local| == dims && |maxItems| == maxDims && (offset.Some? ==> |offset.value| == dims)
    requires forall i :: 0 <= i < dims ==> local[i] > 0
    ensures r.Ok? <==> Acceptable(dims, maxDims, global, local, maxItems, maxGroup)
    ensures r.Ok? <==>
      && 0 < dims <= maxDims && Product(local) <= maxGroup
      && (forall i :: 0 <= i < dims ==> global[i] > 0)
      && (forall i :: 0 <= i < dims ==> global[i] % local[i] == 0)
      && (forall i :: 0 <= i < dims <= maxDims ==> local[i] <= maxItems[i])
    ensures r.Ok? ==> r.range == Range(Padded(if offset.Some? then offset.value else seq(dims, _ => 0), maxDims, 0),
                                       Padded(global, maxDims, 1), Padded(local, maxDims, 1))
    ensures r == Err(InvalidWorkDimension) <==> dims == 0 || dims > maxDims
    ensures r == Err(InvalidWorkItemSize) <==>
      && 0 < dims <= maxDims
      && exists i ::
           && 0 <= i < dims && local[i] > maxItems[i] && global[i] % local[i] == 0
           && PassesBelow(global, local, maxItems, i)
    ensures r == Err(InvalidWorkGroupSize) <==>
      && 0 < dims <= maxDims
      && (|| (exists i :: 0 <= i < dims && global[i] % local[i] != 0 && PassesBelow(global, local, maxItems, i))
          || (PassesBelow(global, local, maxItems, dims) && Product(local) > maxGroup))
    ensures r == Err(InvalidGlobalWorkSize) <==>
      && 0 < dims <= maxDims && PassesBelow(global, local, maxItems, dims) && Product(local) <= maxGroup
      && exists i :: 0 <= i < dims && global[i] == 0
  {
    hide Product;
    if dims == 0 || dims > maxDims { return Err(InvalidWorkDimension); }
    var groupSize, zero := 1, false;
    assert Product(local[..0]) == 1 by { ProductNone(local[..0]); }
    var offsets, globals, locals := [], [], [];
    for i := 0 to dims
      invariant |offsets| == |globals| == |locals| == i
      invariant offsets == if offset.Some? then offset.value[..i] else seq(i, _ => 0)
      invariant globals == global[..i] && locals == local[..i]
      invariant groupSize == Product(local[..i])
      invariant zero <==> exists j :: 0 <= j < i && global[j] == 0
      invariant forall j :: 0 <= j < i ==> global[j] % local[j] == 0 && local[j] <= maxItems[j]
    {
      offsets := offsets + [if offset.Some? then offset.value[i] else 0];
      if global[i] == 0 { zero := true; }
      globals := globals + [global[i]];
      if global[i] % local[i] != 0 { return Err(InvalidWorkGroupSize); }
      if local[i] > maxItems[i] { return Err(InvalidWorkItemSize); }
      locals := locals + [local[i]];
      ProductSnoc(local, i);
      groupSize := groupSize * local[i];
    }
    assert local[..dims] == local && global[..dims] == global;
    assert offset.Some? ==> offset.value[..dims] == offset.value;
    var range := PadRange(offsets, globals, locals, maxDims);
    if groupSize > maxGroup { return Err(InvalidWorkGroupSize); }
    if zero { return Err(InvalidGlobalWorkSize); }
    return Ok(range);
  }

  /** The missing dimensions. */
  method PadRange(offset: seq<nat>, global: seq<nat>, local: seq<nat>, maxDims: nat) returns (r: Range)
    requires |offset| == |global| == |local| <= maxDims
    ensures r == Range(Padded(offset, maxDims, 0), Padded(global, maxDims, 1), Padded(local, maxDims, 1))
  {
    var offsets, globals, locals := offset, global, local;
    for i := |offset| to maxDims
      invariant offsets == Padded(offset, i, 0) && globals == Padded(global, i, 1) && locals == Padded(local, i, 1)
    {
      offsets, globals, locals := offsets + [0], globals + [1], locals + [1];
    }
    r := Range(offsets, globals, locals);
  }

  // ----- Work-item functions of one dimension

  /** The global id of the first work-item of a group. The CPU device computes it when it starts a
      group; the device library reads it from the kernel configuration. */
  function GlobalFirst(offset: nat, local: nat, group: nat): nat { offset + group * local }

  function GlobalId(first: nat, localId: nat): nat { first + localId }

  function GroupId(first: nat, offset: nat, local: nat): nat
    requires first >= offset && local > 0
  {
    (first - offset) / local
  }

  function NumGroups(global: nat, local: nat): nat
    requires local > 0
  {
    global / local
  }

  lemma DivExact(g: nat, l: nat, local: nat)
    requires l < local
    ensures (g * local + l) / local == g && (g * local + l) % local == l
  {
    var x := g * local + l;
    DivMod(x, local);
    RadixUnique(g, l, x / local, x % local, local);
  }

  lemma WholeGroups(global: nat, local: nat)
    requires local > 0 && global % local == 0
    ensures NumGroups(global, local) * local == global
  {
  }

  /** Groups and local ids stay inside the index space, and both are recovered from the global id. */
  lemma IdOf(offset: nat, global: nat, local: nat, group: nat, localId: nat)
    requires local > 0 && global % local == 0 && group < NumGroups(global, local) && localId < local
    ensures var first := GlobalFirst(offset, local, group);
      && offset <= GlobalId(first, localId) < offset + global
      && GroupId(first, offset, local) == group
      && (GlobalId(first, localId) - offset) / local == group
      && (GlobalId(first, localId) - offset) % local == localId
  {
    WholeGroups(global, local);
    Distribute(group, NumGroups(global, local), local);
    DivExact(group, 0, local);
    DivExact(group, localId, local);
  }

  /** Every global id belongs to a group and a local id. */
  lemma GroupOf(offset: nat, global: nat, local: nat, id: nat) returns (group: nat, localId: nat)
    requires local > 0 && global % local == 0 && offset <= id < offset + global
    ensures group < NumGroups(global, local) && localId < local
    ensures GlobalId(GlobalFirst(offset, local, group), localId) == id
  {
    WholeGroups(global, local);
    var x := id - offset;
    group, localId := x / local, x % local;
    assert x == (x / local) * local + x % local;
    if x / local >= NumGroups(global, local) {
      MulMono(NumGroups(global, local), x / local, local);
    }
  }

  // ----- The whole index space

  predicate Valid(r: Range, dims: nat) {
    && |r.offset| == |r.global| == |r.local| == dims
    && forall i :: 0 <= i < dims ==> r.local[i] > 0 && r.global[i] % r.local[i] == 0
  }

  predicate IsItem(r: Range, dims: nat, group: seq<nat>, localId: seq<nat>)
    requires Valid(r, dims)
  {
    && |group| == |localId| == dims
    && forall i :: 0 <= i < dims ==> group[i] < NumGroups(r.global[i], r.local[i]) && localId[i] < r.local[i]
  }

  predicate IsGlobalId(r: Range, dims: nat, id: seq<nat>)
    requires Valid(r, dims)
  {
    |id| == dims && forall i :: 0 <= i < dims ==> r.offset[i] <= id[i] < r.offset[i] + r.global[i]
  }

  function Id(r: Range, dims: nat, group: seq<nat>, localId: seq<nat>): (id: seq<nat>)
    requires Valid(r, dims) && IsItem(r, dims, group, localId)
    ensures |id| == dims
  {
    seq(dims, i requires 0 <= i < dims => GlobalId(GlobalFirst(r.offset[i], r.local[i], group[i]), localId[i]))
  }

  /** Starting a work-group on the CPU device: the origin of the group is the global id of its work-item
      with local id 0, and the number of its work-items is the product of the local sizes. */
  method StartGroup(r: Range, dims: nat, group: seq<nat>) returns (first: seq<nat>, items: nat)
    requires Valid(r, dims) && IsItem(r, dims, group, seq(dims, _ => 0))
    ensures first == Id(r, dims, group, seq(dims, _ => 0))
    ensures items == Product(r.local)
  {
    hide Product;
    first, items := [], 1;
    assert Product(r.local[..0]) == 1 by { ProductNone(r.local[..0]); }
    for i := 0 to dims
      invariant |first| == i && items == Product(r.local[..i])
      invariant forall j :: 0 <= j < i ==> first[j] == group[j] * r.local[j] + r.offset[j]
    {
      ProductSnoc(r.local, i);
      items := items * r.local[i];
      first := first + [group[i] * r.local[i] + r.offset[i]];
    }
    assert r.local[..dims] == r.local;
  }

  /** Work-items have global ids of the index space, and different work-items have different ones. */
  lemma IdsInjective(r: Range, dims: nat, g1: seq<nat>, l1: seq<nat>, g2: seq<nat>, l2: seq<nat>)
    requires Valid(r, dims) && IsItem(r, dims, g1, l1) && IsItem(r, dims, g2, l2)
    ensures IsGlobalId(r, dims, Id(r, dims, g1, l1))
    ensures Id(r, dims, g1, l1) == Id(r, dims, g2, l2) ==> g1 == g2 && l1 == l2
  {
    forall i | 0 <= i < dims
      ensures r.offset[i] <= Id(r, dims, g1, l1)[i] < r.offset[i] + r.global[i]
      ensures Id(r, dims, g1, l1)[i] == Id(r, dims, g2, l2)[i] ==> g1[i] == g2[i] && l1[i] == l2[i]
    {
      IdOf(r.offset[i], r.global[i], r.local[i], g1[i], l1[i]);
      IdOf(r.offset[i], r.global[i], r.local[i], g2[i], l2[i]);
    }
  }

  /** In dimension `i`, work-item `l` of group `g` has global id `n`. */
  predicate ItemAt(r: Range, dims: nat, i: nat, g: nat, l: nat, n: nat)
    requires Valid(r, dims) && i < dims
  {
    && g < NumGroups(r.global[i], r.local[i]) && l < r.local[i]
    && GlobalId(GlobalFirst(r.offset[i], r.local[i], g), l) == n
  }

  lemma ItemExists(r: Range, dims: nat, i: nat, n: nat) returns (g: nat, l: nat)
    requires Valid(r, dims) && i < dims && r.offset[i] <= n < r.offset[i] + r.global[i]
    ensures ItemAt(r, dims, i, g, l, n)
  {
    assert r.local[i] > 0 && r.global[i] % r.local[i] == 0;
    hide NumGroups, GlobalId, GlobalFirst;
    g, l := GroupOf(r.offset[i], r.global[i], r.local[i], n);
  }

  /** ... and every global id is the id of a work-item. */
  lemma IdsSurjective(r: Range, dims: nat, id: seq<nat>)
    requires Valid(r, dims) && IsGlobalId(r, dims, id)
    ensures exists group, localId :: IsItem(r, dims, group, localId) && Id(r, dims, group, localId) == id
  {
    var group: seq<nat>, localId: seq<nat> := [], [];
    for i := 0 to dims
      invariant |group| == |localId| == i
      invariant forall j :: 0 <= j < i ==> ItemAt(r, dims, j, group[j], localId[j], id[j])
    {
      var g, l := ItemExists(r, dims, i, id[i]);
      group, localId := group + [g], localId + [l];
    }
    assert IsItem(r, dims, group, localId);
    assert Id(r, dims, group, localId) == id;
  }

  /** An accepted range is valid in all dimensions of the device, padded ones included. */
  lemma AcceptedValid(dims: nat, maxDims: nat, offset: seq<nat>, global: seq<nat>, local: seq<nat>,
                      maxItems: seq<nat>, maxGroup: nat)
    requires |global| == |local| == |offset| == dims <= maxDims == |maxItems|
    requires forall i :: 0 <= i < dims ==> local[i] > 0
    requires Acceptable(dims, maxDims, global, local, maxItems, maxGroup)
    ensures Valid(Range(Padded(offset, maxDims, 0), Padded(global, maxDims, 1), Padded(local, maxDims, 1)), maxDims)
    ensures Product(Padded(local, maxDims, 1)) == Product(local) <= maxGroup
  {
    var l, g := Padded(local, maxDims, 1), Padded(global, maxDims, 1);
    assert forall i :: 0 <= i < dims ==> l[i] == local[i] && g[i] == global[i] by {
      assert l[..dims] == local && g[..dims] == global;
    }
    PaddedProduct(local, maxDims);
  }

  lemma {:induction false} PaddedProduct(xs: seq<nat>, dims: nat)
    requires |xs| <= dims
    ensures Product(Padded(xs, dims, 1)) == Product(xs)
  {
    if |xs| < dims {
      assert Padded(xs, dims, 1)[..dims - 1] == Padded(xs, dims - 1, 1);
      PaddedProduct(xs, dims - 1);
    } else {
      assert Padded(xs, dims, 1) == xs;
    }
  }
}
