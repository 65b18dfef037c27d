/**
 Rectangle copies between buffers: pitches, bounds and overlap checks of the event constructors, on
 unbounded naturals.  Positions are in bytes; coordinate 0 is the position in a row, 1 the row, 2
 the slice.
 */
module RectCopies {
  import opened Wrappers
  import opened Arithmetic

  datatype Verdict<+T> = Accepted(value: T) | InvalidValue | CopyOverlap

  type Triple = v: seq<nat> | |v| == 3 witness [0, 0, 0]

  datatype Rect = Rect(
    srcOrigin: Triple, dstOrigin: Triple, region: Triple,
    srcRow: nat, srcSlice: nat, dstRow: nat, dstSlice: nat)

  // ----- Specification

  function Scaled(v: Triple, bytes: nat): Triple { [v[0] * bytes, v[1], v[2]] }

  predicate Fits(origin: Triple, region: Triple, row: nat, slice: nat, size: nat) {
    && origin[0] + region[0] <= row
    && (origin[1] + region[1]) * row <= slice
    && (origin[2] + region[2]) * slice <= size
  }

  /** The two intervals of length n starting at a and b are different and share a position. */
  predicate Crossing(a: nat, b: nat, n: nat) { (b < a && b + n > a) || (a < b && a + n > b) }

  predicate Inside(p: Triple, region: Triple) { p[0] < region[0] && p[1] < region[1] && p[2] < region[2] }

  /** The byte of the buffer that point `p` of the region denotes. */
  function Offset(origin: Triple, row: nat, slice: nat, p: Triple): nat {
    (origin[2] + p[2]) * slice + (origin[1] + p[1]) * row + origin[0] + p[0]
  }

  /** What the bounds and overlap checks decide about a rectangle. */
  function Checked(r: Rect, same: bool, srcSize: nat, dstSize: nat): Verdict<Rect> {
    if !Fits(r.srcOrigin, r.region, r.srcRow, r.srcSlice, srcSize)
       || !Fits(r.dstOrigin, r.region, r.dstRow, r.dstSlice, dstSize) then InvalidValue
    else if same && forall i :: 0 <= i < 3 ==> Crossing(r.srcOrigin[i], r.dstOrigin[i], r.region[i]) then CopyOverlap
    else Accepted(r)
  }

  // ----- Operations

  /** The constructor of `ReadWriteCopyBufferRectEvent`. */
  method MakeRect(srcOrigin: Option<Triple>, dstOrigin: Option<Triple>, region: Triple,
                  srcRow: nat, srcSlice: nat, dstRow: nat, dstSlice: nat, bytes: nat)
    returns (r: Verdict<Rect>)
    ensures r.Accepted? <==>
      && region[0] > 0 && region[1] > 0 && region[2] > 0
      && (srcRow != 0 ==> srcRow >= region[0] * bytes)
      && (srcSlice != 0 ==> srcSlice >= region[1] * (if srcRow != 0 then srcRow else region[0] * bytes))
      && (dstRow != 0 ==> dstRow >= region[0] * bytes)
      && (dstSlice != 0 ==> dstSlice >= region[1] * (if dstRow != 0 then dstRow else region[0] * bytes))
    ensures r != CopyOverlap
    ensures r.Accepted? ==>
      && r.value.region == [region[0] * bytes, region[1], region[2]]
      && r.value.srcOrigin ==
         (if srcOrigin.Some? then [srcOrigin.value[0] * bytes, srcOrigin.value[1], srcOrigin.value[2]] else [0, 0, 0])
      && r.value.dstOrigin ==
         (if dstOrigin.Some? then [dstOrigin.value[0] * bytes, dstOrigin.value[1], dstOrigin.value[2]] else [0, 0, 0])
      && r.value.srcRow == (if srcRow != 0 then srcRow else region[0] * bytes)
      && r.value.srcSlice == (if srcSlice != 0 then srcSlice else region[1] * r.value.srcRow)
      && r.value.dstRow == (if dstRow != 0 then dstRow else region[0] * bytes)
      && r.value.dstSlice == (if dstSlice != 0 then dstSlice else region[1] * r.value.dstRow)
  {
    var src := if srcOrigin.Some? then srcOrigin.value else [0, 0, 0];
    var dst := if dstOrigin.Some? then dstOrigin.value else [0, 0, 0];
    for i := 0 to 3
      invariant forall j :: 0 <= j < i ==> region[j] != 0
    {
      if region[i] == 0 { return InvalidValue; }
    }
    var reg := Scaled(region, bytes);

    var sRow := reg[0];
    if srcRow != 0 {
      if srcRow < sRow { return InvalidValue; }
      sRow := srcRow;
    }
    var sSlice := reg[1] * sRow;
    if srcSlice != 0 {
      if srcSlice < sSlice { return InvalidValue; }
      sSlice := srcSlice;
    }
    var dRow := reg[0];
    if dstRow != 0 {
      if dstRow < dRow { return InvalidValue; }
      dRow := dstRow;
    }
    var dSlice := reg[1] * dRow;
    if dstSlice != 0 {
      if dstSlice < dSlice { return InvalidValue; }
      dSlice := dstSlice;
    }
    return Accepted(Rect(Scaled(src, bytes), Scaled(dst, bytes), reg, sRow, sSlice, dRow, dSlice));
  }

  /** The checks of `CopyBufferRectEvent`; `same` says that source and destination are one buffer. */
  method CheckCopy(r: Rect, same: bool, srcSize: nat, dstSize: nat) returns (v: Verdict<Rect>)
    ensures v == Checked(r, same, srcSize, dstSize)
    ensures v == InvalidValue <==>
      || r.srcOrigin[0] + r.region[0] > r.srcRow || (r.srcOrigin[1] + r.region[1]) * r.srcRow > r.srcSlice
      || (r.srcOrigin[2] + r.region[2]) * r.srcSlice > srcSize
      || r.dstOrigin[0] + r.region[0] > r.dstRow || (r.dstOrigin[1] + r.region[1]) * r.dstRow > r.dstSlice
      || (r.dstOrigin[2] + r.region[2]) * r.dstSlice > dstSize
    ensures v.Accepted? ==> v.value == r
    ensures !same ==> v != CopyOverlap
  {
    if r.srcOrigin[0] + r.region[0] > r.srcRow
       || (r.srcOrigin[1] + r.region[1]) * r.srcRow > r.srcSlice
       || (r.srcOrigin[2] + r.region[2]) * r.srcSlice > srcSize {
      return InvalidValue;
    }
    if r.dstOrigin[0] + r.region[0] > r.dstRow
       || (r.dstOrigin[1] + r.region[1]) * r.dstRow > r.dstSlice
       || (r.dstOrigin[2] + r.region[2]) * r.dstSlice > dstSize {
      return InvalidValue;
    }
    if same {
      var overlapping := 0;
      for i := 0 to 3
        invariant 0 <= overlapping <= i
        invariant overlapping == i <==> forall j :: 0 <= j < i ==> Crossing(r.srcOrigin[j], r.dstOrigin[j], r.region[j])
      {
        if Crossing(r.srcOrigin[i], r.dstOrigin[i], r.region[i]) { overlapping := overlapping + 1; }
      }
      if overlapping == 3 { return CopyOverlap; }
    }
    return Accepted(r);
  }

  // ----- Mixed radix

  /** A position below the fitted rows stays inside its slice. */
  lemma BelowSlice(y: nat, x: nat, rows: nat, row: nat, slice: nat)
    requires y < rows && x < row && rows * row <= slice
    ensures y * row + x < slice
  {
    Distribute(y, rows, row);
  }

  lemma PositionUnique(z1: nat, y1: nat, x1: nat, z2: nat, y2: nat, x2: nat, row: nat, slice: nat)
    requires x1 < row && x2 < row && y1 * row + x1 < slice && y2 * row + x2 < slice
    requires z1 * slice + y1 * row + x1 == z2 * slice + y2 * row + x2
    ensures z1 == z2 && y1 == y2 && x1 == x2
  {
    RadixUnique(z1, y1 * row + x1, z2, y2 * row + x2, slice);
    RadixUnique(y1, x1, y2, x2, row);
  }

  // ----- Bounds and injectivity

  /** Every point of a region that passed the checks is inside the buffer. */
  lemma OffsetInBounds(origin: Triple, region: Triple, row: nat, slice: nat, size: nat, p: Triple)
    requires Fits(origin, region, row, slice, size) && Inside(p, region)
    ensures Offset(origin, row, slice, p) < size
  {
    var x, y, z := origin[0] + p[0], origin[1] + p[1], origin[2] + p[2];
    BelowSlice(y, x, origin[1] + region[1], row, slice);
    Distribute(z, origin[2] + region[2], slice);
  }

  /** Bytes of two rectangles with the same pitches are equal only at equal coordinates. */
  lemma OffsetUnique(o1: Triple, o2: Triple, region: Triple, row: nat, slice: nat, p1: Triple, p2: Triple)
    requires o1[0] + region[0] <= row && (o1[1] + region[1]) * row <= slice
    requires o2[0] + region[0] <= row && (o2[1] + region[1]) * row <= slice
    requires Inside(p1, region) && Inside(p2, region) && Offset(o1, row, slice, p1) == Offset(o2, row, slice, p2)
    ensures forall i :: 0 <= i < 3 ==> o1[i] + p1[i] == o2[i] + p2[i]
  {
    BelowSlice(o1[1] + p1[1], o1[0] + p1[0], o1[1] + region[1], row, slice);
    BelowSlice(o2[1] + p2[1], o2[0] + p2[0], o2[1] + region[1], row, slice);
    PositionUnique(o1[2] + p1[2], o1[1] + p1[1], o1[0] + p1[0],
                   o2[2] + p2[2], o2[1] + p2[1], o2[0] + p2[0], row, slice);
  }

  lemma OffsetInjective(origin: Triple, region: Triple, row: nat, slice: nat, size: nat, p1: Triple, p2: Triple)
    requires Fits(origin, region, row, slice, size) && Inside(p1, region) && Inside(p2, region)
    requires Offset(origin, row, slice, p1) == Offset(origin, row, slice, p2)
    ensures p1 == p2
  {
    OffsetUnique(origin, origin, region, row, slice, p1, p2);
    assert p1[0] == p2[0] && p1[1] == p2[1] && p1[2] == p2[2];
  }

  // ----- Tightly packed copies

  lemma DivBelow(k: nat, m: nat, n: nat)
    requires m > 0 && k < n * m
    ensures k / m < n
  {
    DivMod(k, m);
    MulMono(n, k / m, m);
  }

  lemma Reassociate(a: nat, b: nat, c: nat, d: nat)
    ensures a * b * c * d == a * (b * (c * d))
  {
    assert a * b * c * d == a * b * (c * d);
  }

  /** Coordinates of byte `k` of a packed box. */
  lemma PackedCoordinates(row: nat, rows: nat, depth: nat, k: nat) returns (x: nat, y: nat, z: nat)
    requires row > 0 && rows > 0 && k < depth * (rows * row)
    ensures x < row && y < rows && z < depth && z * (rows * row) + y * row + x == k
  {
    var slice := rows * row;
    assert slice > 0 by { Distribute(0, rows, row); }
    z, y, x := k / slice, (k % slice) / row, (k % slice) % row;
    DivBelow(k, slice, depth);
    DivMod(k, slice);
    DivBelow(k % slice, row, rows);
    DivMod(k % slice, row);
  }

  lemma PackedFills(region: Triple, pixel: nat, k: nat) returns (p: Triple)
    requires region[0] > 0 && region[1] > 0 && region[2] > 0 && pixel > 0
    requires k < region[2] * region[1] * region[0] * pixel
    ensures var reg := Scaled(region, pixel);
      Inside(p, reg) && Offset([0, 0, 0], reg[0], reg[1] * reg[0], p) == k
  {
    var row, rows := region[0] * pixel, region[1];
    assert row > 0 by { Distribute(0, region[0], pixel); }
    Reassociate(region[2], rows, region[0], pixel);
    var x, y, z := PackedCoordinates(row, rows, region[2], k);
    p := [x, y, z];
    assert Offset([0, 0, 0], row, rows * row, p) == z * (rows * row) + y * row + x;
  }

  lemma PackedStaysInside(region: Triple, pixel: nat, p: Triple)
    requires Inside(p, Scaled(region, pixel))
    ensures var reg := Scaled(region, pixel);
      Offset([0, 0, 0], reg[0], reg[1] * reg[0], p) < region[2] * region[1] * region[0] * pixel
  {
    var row := region[0] * pixel;
    Reassociate(region[2], region[1], region[0], pixel);
    OffsetInBounds([0, 0, 0], Scaled(region, pixel), row, region[1] * row, region[2] * (region[1] * row), p);
  }

  /** The packed side of an image-to-buffer copy (origin 0, pitches 0): the bytes it writes from
      `offset` on are exactly the interval whose end the constructor compares with the buffer size. */
  lemma PackedInterval(region: Triple, pixel: nat, offset: nat, b: nat)
    requires region[0] > 0 && region[1] > 0 && region[2] > 0 && pixel > 0
    ensures (exists p: Triple :: Inside(p, Scaled(region, pixel))
               && offset + Offset([0, 0, 0], region[0] * pixel, region[1] * (region[0] * pixel), p) == b)
            <==> offset <= b < offset + region[2] * region[1] * region[0] * pixel
  {
    if offset <= b < offset + region[2] * region[1] * region[0] * pixel {
      var p := PackedFills(region, pixel, b - offset);
    }
    forall p: Triple | Inside(p, Scaled(region, pixel))
      ensures Offset([0, 0, 0], region[0] * pixel, region[1] * (region[0] * pixel), p) <
              region[2] * region[1] * region[0] * pixel
    {
      PackedStaysInside(region, pixel, p);
    }
  }

  /** The overflow check of `CopyImageToBufferEvent`: it passes if and only if every byte that the packed
      copy writes from `offset` on is inside the buffer. */
  method CheckImageToBuffer(region: Triple, pixel: nat, offset: nat, size: nat) returns (ok: bool)
    requires region[0] > 0 && region[1] > 0 && region[2] > 0 && pixel > 0
    ensures ok <==> forall p: Triple | Inside(p, Scaled(region, pixel)) ::
      offset + Offset([0, 0, 0], region[0] * pixel, region[1] * (region[0] * pixel), p) < size
  {
    var bytes := region[2] * region[1] * region[0] * pixel;
    ok := offset + bytes <= size;
    PackedSome(region, pixel);
    if !ok {
      var p := PackedFills(region, pixel, bytes - 1);
      assert offset + Offset([0, 0, 0], region[0] * pixel, region[1] * (region[0] * pixel), p) >= size;
    } else {
      forall p: Triple | Inside(p, Scaled(region, pixel))
        ensures offset + Offset([0, 0, 0], region[0] * pixel, region[1] * (region[0] * pixel), p) < size
      {
        PackedStaysInside(region, pixel, p);
      }
    }
  }

  lemma PackedSome(region: Triple, pixel: nat)
    requires region[0] > 0 && region[1] > 0 && region[2] > 0 && pixel > 0
    ensures region[2] * region[1] * region[0] * pixel > 0
  {
    Distribute(0, region[0], pixel);
    Distribute(0, region[1], region[0] * pixel);
    Distribute(0, region[2], region[1] * (region[0] * pixel));
    Reassociate(region[2], region[1], region[0], pixel);
  }

  // ----- Overlap of two rectangles of one buffer

  ghost predicate Intersect(r: Rect) {
    exists p: Triple, q: Triple :: Inside(p, r.region) && Inside(q, r.region)
      && Offset(r.srcOrigin, r.srcRow, r.srcSlice, p) == Offset(r.dstOrigin, r.dstRow, r.dstSlice, q)
  }

  /** In one coordinate the two intervals share a position. */
  predicate Near(a: nat, b: nat, n: nat) { a < b + n && b < a + n }

  lemma NearIntersect(r: Rect)
    requires r.srcRow == r.dstRow && r.srcSlice == r.dstSlice
    requires forall i :: 0 <= i < 3 ==> Near(r.srcOrigin[i], r.dstOrigin[i], r.region[i])
    ensures Intersect(r)
  {
    var s, d := r.srcOrigin, r.dstOrigin;
    assert Near(s[0], d[0], r.region[0]) && Near(s[1], d[1], r.region[1]) && Near(s[2], d[2], r.region[2]);
    var p: Triple := [Gap(s[0], d[0]), Gap(s[1], d[1]), Gap(s[2], d[2])];
    var q: Triple := [Gap(d[0], s[0]), Gap(d[1], s[1]), Gap(d[2], s[2])];
    assert s[0] + p[0] == d[0] + q[0] && s[1] + p[1] == d[1] + q[1] && s[2] + p[2] == d[2] + q[2];
    assert Inside(p, r.region) && Inside(q, r.region);
    assert Offset(s, r.srcRow, r.srcSlice, p) == Offset(d, r.dstRow, r.dstSlice, q);
  }

  function Gap(a: nat, b: nat): nat { if a < b then b - a else 0 }

  lemma IntersectNear(r: Rect, srcSize: nat, dstSize: nat)
    requires r.srcRow == r.dstRow && r.srcSlice == r.dstSlice && Intersect(r)
    requires Fits(r.srcOrigin, r.region, r.srcRow, r.srcSlice, srcSize)
    requires Fits(r.dstOrigin, r.region, r.dstRow, r.dstSlice, dstSize)
    ensures forall i :: 0 <= i < 3 ==> Near(r.srcOrigin[i], r.dstOrigin[i], r.region[i])
  {
    var p: Triple, q: Triple :| Inside(p, r.region) && Inside(q, r.region)
      && Offset(r.srcOrigin, r.srcRow, r.srcSlice, p) == Offset(r.dstOrigin, r.dstRow, r.dstSlice, q);
    OffsetUnique(r.srcOrigin, r.dstOrigin, r.region, r.srcRow, r.srcSlice, p, q);
    assert forall i :: 0 <= i < 3 ==> p[i] < r.region[i] && q[i] < r.region[i];
  }

  /** With equal pitches the overlap check rejects exactly the copies that share a byte and whose
      origins differ in all three coordinates: a rejected copy always overlaps, and an overlap is
      missed exactly when some coordinate of the origins agrees. */
  lemma OverlapExact(r: Rect, size: nat)
    requires r.srcRow == r.dstRow && r.srcSlice == r.dstSlice
    requires Fits(r.srcOrigin, r.region, r.srcRow, r.srcSlice, size)
    requires Fits(r.dstOrigin, r.region, r.dstRow, r.dstSlice, size)
    ensures (forall i :: 0 <= i < 3 ==> Crossing(r.srcOrigin[i], r.dstOrigin[i], r.region[i])) <==>
            Intersect(r) && forall i :: 0 <= i < 3 ==> r.srcOrigin[i] != r.dstOrigin[i]
  {
    if forall i :: 0 <= i < 3 ==> Crossing(r.srcOrigin[i], r.dstOrigin[i], r.region[i]) {
      forall i | 0 <= i < 3 ensures Near(r.srcOrigin[i], r.dstOrigin[i], r.region[i]) {
        assert Crossing(r.srcOrigin[i], r.dstOrigin[i], r.region[i]);
      }
      NearIntersect(r);
    }
    if Intersect(r) {
      IntersectNear(r, size, size);
      assert forall i | 0 <= i < 3 && r.srcOrigin[i] != r.dstOrigin[i] ::
        Near(r.srcOrigin[i], r.dstOrigin[i], r.region[i]) ==> Crossing(r.srcOrigin[i], r.dstOrigin[i], r.region[i]);
    }
  }

  /** Copying a rectangle onto itself is accepted although every byte overlaps. */
  lemma SelfCopyAccepted()
    ensures exists r: Rect ::
      && Intersect(r) && r.srcRow == r.dstRow && r.srcSlice == r.dstSlice
      && Fits(r.srcOrigin, r.region, r.srcRow, r.srcSlice, 1)
      && !(forall i :: 0 <= i < 3 ==> Crossing(r.srcOrigin[i], r.dstOrigin[i], r.region[i]))
  {
    var r := Rect([0, 0, 0], [0, 0, 0], [1, 1, 1], 1, 1, 1, 1);
    assert !Crossing(r.srcOrigin[0], r.dstOrigin[0], r.region[0]);
    NearIntersect(r);
    assert Fits(r.srcOrigin, r.region, r.srcRow, r.srcSlice, 1);
  }

  /** Distinct points of the region denote distinct bytes of a buffer of this size. */
  ghost predicate Addresses(origin: Triple, region: Triple, row: nat, slice: nat, size: nat) {
    && (forall p: Triple :: Inside(p, region) ==> Offset(origin, row, slice, p) < size)
    && (forall p: Triple, q: Triple | Inside(p, region) && Inside(q, region) ::
          Offset(origin, row, slice, p) == Offset(origin, row, slice, q) ==> p == q)
  }

  lemma FitsAddresses(origin: Triple, region: Triple, row: nat, slice: nat, size: nat)
    requires Fits(origin, region, row, slice, size)
    ensures Addresses(origin, region, row, slice, size)
  {
    forall p: Triple | Inside(p, region) ensures Offset(origin, row, slice, p) < size {
      OffsetInBounds(origin, region, row, slice, size, p);
    }
    forall p: Triple, q: Triple | Inside(p, region) && Inside(q, region)
                                  && Offset(origin, row, slice, p) == Offset(origin, row, slice, q)
      ensures p == q
    {
      OffsetInjective(origin, region, row, slice, size, p, q);
    }
  }

  /** The verdict on a copy inside one buffer, with equal pitches: it is rejected as overlapping if and only
      if it is in bounds, the two byte sets intersect and the origins differ in all three coordinates. */
  lemma OverlapVerdict(r: Rect, size: nat)
    requires r.srcRow == r.dstRow && r.srcSlice == r.dstSlice
    ensures Checked(r, true, size, size) == CopyOverlap <==>
      && Fits(r.srcOrigin, r.region, r.srcRow, r.srcSlice, size)
      && Fits(r.dstOrigin, r.region, r.dstRow, r.dstSlice, size)
      && Intersect(r) && forall i :: 0 <= i < 3 ==> r.srcOrigin[i] != r.dstOrigin[i]
  {
    if Fits(r.srcOrigin, r.region, r.srcRow, r.srcSlice, size)
       && Fits(r.dstOrigin, r.region, r.dstRow, r.dstSlice, size) {
      OverlapExact(r, size);
    }
  }

  /** One side of a copy, for the caller's arguments: pitches are large enough, and the far corner of the
      region is inside the buffer. */
  predicate SideFits(origin: Triple, region: Triple, row: nat, slice: nat, bytes: nat, size: nat) {
    var rowPitch := if row != 0 then row else region[0] * bytes;
    var slicePitch := if slice != 0 then slice else region[1] * rowPitch;
    && (row != 0 ==> row >= region[0] * bytes) && (slice != 0 ==> slice >= region[1] * rowPitch)
    && (origin[0] + region[0]) * bytes <= rowPitch
    && (origin[1] + region[1]) * rowPitch <= slicePitch
    && (origin[2] + region[2]) * slicePitch <= size
  }

  lemma Sum3(a: nat, b: nat, m: nat)
    ensures (a + b) * m == a * m + b * m
  {
  }

  /** A copy that both constructors check.  It is accepted if and only if the region is not empty, both
      sides fit, and it is not a copy inside one buffer that crosses in all three coordinates.  Then, on
      either side, every point of the region has its own byte inside the buffer, where the caller's origin
      and pitches put it. */
  method CopyBufferRect(srcOrigin: Triple, dstOrigin: Triple, region: Triple, srcRow: nat, srcSlice: nat,
                        dstRow: nat, dstSlice: nat, bytes: nat, same: bool, srcSize: nat, dstSize: nat)
    returns (v: Verdict<Rect>)
    ensures v.Accepted? <==>
      && region[0] > 0 && region[1] > 0 && region[2] > 0
      && SideFits(srcOrigin, region, srcRow, srcSlice, bytes, srcSize)
      && SideFits(dstOrigin, region, dstRow, dstSlice, bytes, dstSize)
      && !(same && Crossing(srcOrigin[0] * bytes, dstOrigin[0] * bytes, region[0] * bytes)
           && Crossing(srcOrigin[1], dstOrigin[1], region[1]) && Crossing(srcOrigin[2], dstOrigin[2], region[2]))
    ensures v.Accepted? ==>
      var r := v.value;
      && r.region == [region[0] * bytes, region[1], region[2]]
      && Addresses(r.srcOrigin, r.region, r.srcRow, r.srcSlice, srcSize)
      && Addresses(r.dstOrigin, r.region, r.dstRow, r.dstSlice, dstSize)
    ensures v.Accepted? ==>
      var row := if srcRow != 0 then srcRow else region[0] * bytes;
      var slice := if srcSlice != 0 then srcSlice else region[1] * row;
      forall p: Triple ::
        Offset(v.value.srcOrigin, v.value.srcRow, v.value.srcSlice, p) ==
        (srcOrigin[2] + p[2]) * slice + (srcOrigin[1] + p[1]) * row + srcOrigin[0] * bytes + p[0]
    ensures v.Accepted? ==>
      var row := if dstRow != 0 then dstRow else region[0] * bytes;
      var slice := if dstSlice != 0 then dstSlice else region[1] * row;
      forall p: Triple ::
        Offset(v.value.dstOrigin, v.value.dstRow, v.value.dstSlice, p) ==
        (dstOrigin[2] + p[2]) * slice + (dstOrigin[1] + p[1]) * row + dstOrigin[0] * bytes + p[0]
  {
    v := MakeRect(Some(srcOrigin), Some(dstOrigin), region, srcRow, srcSlice, dstRow, dstSlice, bytes);
    if !v.Accepted? { return; }
    var r := v.value;
    SideBounds(srcOrigin, region, srcRow, srcSlice, bytes, srcSize, r.srcOrigin, r.region);
    SideBounds(dstOrigin, region, dstRow, dstSlice, bytes, dstSize, r.dstOrigin, r.region);
    ByteOf(r.srcOrigin, srcOrigin, r.srcRow, r.srcSlice, bytes);
    ByteOf(r.dstOrigin, dstOrigin, r.dstRow, r.dstSlice, bytes);
    CrossingAll(r);
    v := CheckCopy(r, same, srcSize, dstSize);
    hide SideFits, Offset, Crossing;
    if v.Accepted? {
      FitsAddresses(r.srcOrigin, r.region, r.srcRow, r.srcSlice, srcSize);
      FitsAddresses(r.dstOrigin, r.region, r.dstRow, r.dstSlice, dstSize);
    }
    hide Fits, Addresses;
  }

  lemma ByteOf(o: Triple, origin: Triple, row: nat, slice: nat, bytes: nat)
    requires o == [origin[0] * bytes, origin[1], origin[2]]
    ensures forall p: Triple ::
      Offset(o, row, slice, p) == (origin[2] + p[2]) * slice + (origin[1] + p[1]) * row + origin[0] * bytes + p[0]
  {
  }

  /** The bounds of a rectangle are those of the caller's arguments. */
  lemma SideBounds(origin: Triple, region: Triple, row: nat, slice: nat, bytes: nat, size: nat, o: Triple, reg: Triple)
    requires o == [origin[0] * bytes, origin[1], origin[2]] && reg == [region[0] * bytes, region[1], region[2]]
    requires row != 0 ==> row >= region[0] * bytes
    requires slice != 0 ==> slice >= region[1] * (if row != 0 then row else region[0] * bytes)
    ensures var rowPitch := if row != 0 then row else region[0] * bytes;
      var slicePitch := if slice != 0 then slice else region[1] * rowPitch;
      Fits(o, reg, rowPitch, slicePitch, size) <==> SideFits(origin, region, row, slice, bytes, size)
  {
    Sum3(origin[0], region[0], bytes);
  }

  lemma CrossingAll(r: Rect)
    ensures (forall i :: 0 <= i < 3 ==> Crossing(r.srcOrigin[i], r.dstOrigin[i], r.region[i])) <==>
      && Crossing(r.srcOrigin[0], r.dstOrigin[0], r.region[0]) && Crossing(r.srcOrigin[1], r.dstOrigin[1], r.region[1])
      && Crossing(r.srcOrigin[2], r.dstOrigin[2], r.region[2])
  {
  }
}
