/** distrans3: the two-pass chamfer distance transform of a binary image into
    an integer image. Distances are in units of STEP1 per voxel side. */
module Chamfer {
  import opened Grid
  import opened Images

  /** Least r from k upwards with r * r >= s. */
  function CeilSqrtFrom(s: nat, k: nat): (r: nat)
    requires k == 0 || (k - 1) * (k - 1) < s
    ensures r * r >= s && (r == 0 || (r - 1) * (r - 1) < s)
    decreases s - k
  {
    if k * k >= s then k
    else
      assert k < s by {
        if k >= 1 {
          assert k <= k * k;
        }
      }
      CeilSqrtFrom(s, k + 1)
  }

  /** The integer ceiling of the square root of s. */
  function CeilSqrt(s: nat): (r: nat)
    ensures r * r >= s && (r == 0 || (r - 1) * (r - 1) < s)
  {
    CeilSqrtFrom(s, 0)
  }

  /** Squared scaled diagonal of the grid, 71^2 * (Mx^2 + My^2 + Mz^2). */
  function DiagonalSquared(d: Dims): int {
    STEP3 * STEP3 * (d.mx * d.mx + d.my * d.my + d.mz * d.mz)
  }

  /** The `infinity` of distrans3, ceil(71 * sqrt(Mx^2 + My^2 + Mz^2)),
      computed exactly as the ceiling square root of its square. It is never
      below the largest step. */
  function Infinity(d: Dims): (inf: int)
    requires d.Ok()
    ensures inf >= STEP3
    ensures (inf - 1) * (inf - 1) < DiagonalSquared(d) <= inf * inf
  {
    assert d.mx * d.mx >= 1 && d.my * d.my >= 1 && d.mz * d.mz >= 1;
    var s := DiagonalSquared(d);
    var r := CeilSqrt(s);
    assert r >= STEP3 by {
      if r < STEP3 {
        MulLe(r, STEP3 - 1, r);
        MulLe(r, STEP3 - 1, STEP3 - 1);
      }
    }
    r
  }

  /** Value of the neighbour of (x, y, z) at offset o. */
  function Neighbour(vals: seq<int>, d: Dims, x: int, y: int, z: int, o: Offset): int
    requires d.Ok() && |vals| == d.Size() && d.Contains(x, y, z) && InBox(d, x, y, z, o)
  {
    vals[Idx(d, x + o.dx, y + o.dy, z + o.dz)]
  }

  /** The TEST lines in the order of offs, starting from the running minimum
      q: each in-box neighbour lowers q to its value plus its step when that
      is smaller. The result is never above q. */
  function Relaxed(vals: seq<int>, d: Dims, x: int, y: int, z: int, offs: seq<Offset>, q: int): (r: int)
    requires d.Ok() && |vals| == d.Size() && d.Contains(x, y, z)
    ensures r <= q
    decreases |offs|
  {
    if offs == [] then q
    else
      var o := offs[0];
      var q' := if InBox(d, x, y, z, o) && q > Neighbour(vals, d, x, y, z, o) + o.w
                then Neighbour(vals, d, x, y, z, o) + o.w else q;
      Relaxed(vals, d, x, y, z, offs[1..], q')
  }

  /** Relaxing never raises q, and leaves it no larger than any in-box
      neighbour plus its step. */
  lemma {:induction false} RelaxedUpper(vals: seq<int>, d: Dims, x: int, y: int, z: int, offs: seq<Offset>, q: int)
    requires d.Ok() && |vals| == d.Size() && d.Contains(x, y, z)
    ensures Relaxed(vals, d, x, y, z, offs, q) <= q
    ensures forall k :: 0 <= k < |offs| && InBox(d, x, y, z, offs[k]) ==>
      Relaxed(vals, d, x, y, z, offs, q) <= Neighbour(vals, d, x, y, z, offs[k]) + offs[k].w
    decreases |offs|
  {
    if offs != [] {
      var o := offs[0];
      var q' := if InBox(d, x, y, z, o) && q > Neighbour(vals, d, x, y, z, o) + o.w
                then Neighbour(vals, d, x, y, z, o) + o.w else q;
      RelaxedUpper(vals, d, x, y, z, offs[1..], q');
      forall k | 1 <= k < |offs| && InBox(d, x, y, z, offs[k])
        ensures Relaxed(vals, d, x, y, z, offs, q) <= Neighbour(vals, d, x, y, z, offs[k]) + offs[k].w
      {
        assert offs[k] == offs[1..][k - 1];
      }
    }
  }

  /** Relaxing keeps q at or above any bound that q and every in-box
      candidate meet. */
  lemma {:induction false} RelaxedLower(vals: seq<int>, d: Dims, x: int, y: int, z: int, offs: seq<Offset>, q: int, lo: int)
    requires d.Ok() && |vals| == d.Size() && d.Contains(x, y, z)
    requires q >= lo
    requires forall k :: 0 <= k < |offs| && InBox(d, x, y, z, offs[k]) ==>
      Neighbour(vals, d, x, y, z, offs[k]) + offs[k].w >= lo
    ensures Relaxed(vals, d, x, y, z, offs, q) >= lo
    decreases |offs|
  {
    if offs != [] {
      var o := offs[0];
      var q' := if InBox(d, x, y, z, o) && q > Neighbour(vals, d, x, y, z, o) + o.w
                then Neighbour(vals, d, x, y, z, o) + o.w else q;
      forall k | 0 <= k < |offs[1..]| && InBox(d, x, y, z, offs[1..][k])
        ensures Neighbour(vals, d, x, y, z, offs[1..][k]) + offs[1..][k].w >= lo
      {
        assert offs[1..][k] == offs[k + 1];
      }
      RelaxedLower(vals, d, x, y, z, offs[1..], q', lo);
    }
  }

  /** Relaxing ends at q or at the candidate of some in-box neighbour, so
      with RelaxedUpper the result is the least of q and the candidates. */
  lemma {:induction false} RelaxedAttained(vals: seq<int>, d: Dims, x: int, y: int, z: int, offs: seq<Offset>, q: int)
    requires d.Ok() && |vals| == d.Size() && d.Contains(x, y, z)
    ensures Relaxed(vals, d, x, y, z, offs, q) == q ||
      exists k :: 0 <= k < |offs| && InBox(d, x, y, z, offs[k]) &&
        Relaxed(vals, d, x, y, z, offs, q) == Neighbour(vals, d, x, y, z, offs[k]) + offs[k].w
    decreases |offs|
  {
    if offs != [] {
      var o := offs[0];
      var q' := if InBox(d, x, y, z, o) && q > Neighbour(vals, d, x, y, z, o) + o.w
                then Neighbour(vals, d, x, y, z, o) + o.w else q;
      RelaxedAttained(vals, d, x, y, z, offs[1..], q');
      var r := Relaxed(vals, d, x, y, z, offs, q);
      if r != q {
        if r == q' {
          assert InBox(d, x, y, z, offs[0]) && r == Neighbour(vals, d, x, y, z, offs[0]) + offs[0].w;
        } else {
          var k :| 0 <= k < |offs[1..]| && InBox(d, x, y, z, offs[1..][k]) &&
            r == Neighbour(vals, d, x, y, z, offs[1..][k]) + offs[1..][k].w;
          assert offs[1..][k] == offs[k + 1];
        }
      }
    }
  }

  /** Relaxing reads only the in-box neighbours: two fields that agree on
      them relax q alike. */
  lemma {:induction false} RelaxedFrame(a: seq<int>, b: seq<int>, d: Dims, x: int, y: int, z: int, offs: seq<Offset>, q: int)
    requires d.Ok() && |a| == d.Size() && |b| == d.Size() && d.Contains(x, y, z)
    requires forall k :: 0 <= k < |offs| && InBox(d, x, y, z, offs[k]) ==>
      Neighbour(a, d, x, y, z, offs[k]) == Neighbour(b, d, x, y, z, offs[k])
    ensures Relaxed(a, d, x, y, z, offs, q) == Relaxed(b, d, x, y, z, offs, q)
    decreases |offs|
  {
    if offs != [] {
      var o := offs[0];
      var q' := if InBox(d, x, y, z, o) && q > Neighbour(a, d, x, y, z, o) + o.w
                then Neighbour(a, d, x, y, z, o) + o.w else q;
      forall k | 0 <= k < |offs[1..]| && InBox(d, x, y, z, offs[1..][k])
        ensures Neighbour(a, d, x, y, z, offs[1..][k]) == Neighbour(b, d, x, y, z, offs[1..][k])
      {
        assert offs[1..][k] == offs[k + 1];
      }
      RelaxedFrame(a, b, d, x, y, z, offs[1..], q');
    }
  }

  /** The block of TEST lines for voxel (x, y, z): starting from q0, relax
      against each bounds-checked neighbour in offs. */
  method Relax(v: IntImage, x: int, y: int, z: int, offs: seq<Offset>, q0: int) returns (q: int)
    requires v.Valid() && v.Shape().Contains(x, y, z)
    ensures q == Relaxed(v.data[..], v.Shape(), x, y, z, offs, q0)
  {
    var d := v.Shape();
    q := q0;
    var k := 0;
    while k < |offs|
      invariant 0 <= k <= |offs|
      invariant Relaxed(v.data[..], d, x, y, z, offs[k..], q) == Relaxed(v.data[..], d, x, y, z, offs, q0)
    {
      var o := offs[k];
      assert offs[k..][1..] == offs[k + 1..];
      if InBox(d, x, y, z, o) {
        var w := v.data[Idx(d, x + o.dx, y + o.dy, z + o.dz)] + o.w;
        if q > w {
          q := w;
        }
      }
      k := k + 1;
    }
  }

  /** State of a voxel after the forward pass: 0 on a point, otherwise a
      distance in [STEP1, inf]. */
  predicate Settled(v: int, b: byte, inf: int) {
    (b == 0 ==> v == 0) && (b != 0 ==> STEP1 <= v <= inf)
  }

  /** No voxel holds a point. */
  predicate NoPoints(bin: seq<byte>) {
    forall q :: 0 <= q < |bin| ==> bin[q] != 0
  }

  /** Voxel (x, y, z) is no larger than any in-box neighbour at offsets offs
      plus the step to it. */
  ghost predicate LocallyConsistent(vals: seq<int>, d: Dims, x: int, y: int, z: int, offs: seq<Offset>)
    requires d.Ok() && |vals| == d.Size() && d.Contains(x, y, z)
  {
    forall k :: 0 <= k < |offs| && InBox(d, x, y, z, offs[k]) ==>
      vals[Idx(d, x, y, z)] <= Neighbour(vals, d, x, y, z, offs[k]) + offs[k].w
  }

  /** The value the forward pass writes at (x, y, z) when the field reads
      vals: 0 on a point, otherwise the TEST block's result from inf. */
  function ForwardAt(vals: seq<int>, bin: seq<byte>, d: Dims, inf: int, x: int, y: int, z: int): int
    requires d.Ok() && |vals| == d.Size() && |bin| == d.Size() && d.Contains(x, y, z)
  {
    if bin[Idx(d, x, y, z)] == 0 then 0 else Relaxed(vals, d, x, y, z, ForwardOffsets, inf)
  }

  /** The value the backward pass writes at (x, y, z) when the field reads
      vals and the forward pass left fwd: a zero stays 0, any other voxel
      gets the TEST block's result from its forward value. */
  function BackwardAt(vals: seq<int>, fwd: seq<int>, d: Dims, x: int, y: int, z: int): int
    requires d.Ok() && |vals| == d.Size() && |fwd| == d.Size() && d.Contains(x, y, z)
  {
    var p := Idx(d, x, y, z);
    if fwd[p] == 0 then 0 else Relaxed(vals, d, x, y, z, BackwardOffsets, fwd[p])
  }

  /** Every voxel of fwd holds what the forward pass writes there, reading
      fwd itself: the field the forward pass leaves behind. */
  ghost predicate IsForwardField(fwd: seq<int>, bin: seq<byte>, d: Dims, inf: int)
    requires d.Ok() && |fwd| == d.Size() && |bin| == d.Size()
  {
    forall x, y, z :: d.Contains(x, y, z) ==> fwd[Idx(d, x, y, z)] == ForwardAt(fwd, bin, d, inf, x, y, z)
  }

  /** Every voxel of vals holds what the backward pass writes there, reading
      vals itself and starting from fwd. */
  ghost predicate IsBackwardField(vals: seq<int>, fwd: seq<int>, d: Dims)
    requires d.Ok() && |vals| == d.Size() && |fwd| == d.Size()
  {
    forall x, y, z :: d.Contains(x, y, z) ==> vals[Idx(d, x, y, z)] == BackwardAt(vals, fwd, d, x, y, z)
  }

  /** vals is what the backward pass makes of fwd, and fwd what the forward
      pass makes of bin. */
  ghost predicate ChamferPasses(vals: seq<int>, fwd: seq<int>, bin: seq<byte>, d: Dims, inf: int)
    requires d.Ok() && |vals| == d.Size() && |bin| == d.Size()
  {
    |fwd| == d.Size() && IsForwardField(fwd, bin, d, inf) && IsBackwardField(vals, fwd, d)
  }

  /** Forward-pass invariant with the cursor at (cx, cy, cz): every voxel
      before it is settled (at `inf` when there are no points), consistent
      with its forward neighbours, and holds what the forward pass writes
      there. */
  ghost predicate ForwardDone(vals: seq<int>, bin: seq<byte>, d: Dims, inf: int, cx: int, cy: int, cz: int)
    requires d.Ok() && |vals| == d.Size() && |bin| == d.Size()
  {
    var c := Idx(d, cx, cy, cz);
    (forall q :: 0 <= q < |vals| && q < c ==> Settled(vals[q], bin[q], inf)) &&
    (NoPoints(bin) ==> forall q :: 0 <= q < |vals| && q < c ==> vals[q] == inf) &&
    (forall x, y, z :: d.Contains(x, y, z) && LexBefore(x, y, z, cx, cy, cz) ==>
      LocallyConsistent(vals, d, x, y, z, ForwardOffsets) && vals[Idx(d, x, y, z)] == ForwardAt(vals, bin, d, inf, x, y, z))
  }

  /** The forward neighbours of a voxel come before it in the buffer. */
  lemma ForwardNeighboursBefore(d: Dims, x: int, y: int, z: int)
    requires d.Ok() && d.Contains(x, y, z)
    ensures forall k :: 0 <= k < |ForwardOffsets| && InBox(d, x, y, z, ForwardOffsets[k]) ==>
      Idx(d, x + ForwardOffsets[k].dx, y + ForwardOffsets[k].dy, z + ForwardOffsets[k].dz) < Idx(d, x, y, z)
  {
    ForwardOffsetsShape();
    forall k | 0 <= k < |ForwardOffsets| && InBox(d, x, y, z, ForwardOffsets[k])
      ensures Idx(d, x + ForwardOffsets[k].dx, y + ForwardOffsets[k].dy, z + ForwardOffsets[k].dz) < Idx(d, x, y, z)
    {
      var o := ForwardOffsets[k];
      assert o in ForwardOffsets;
      IdxLexLess(d, x + o.dx, y + o.dy, z + o.dz, x, y, z);
    }
  }

  /** The backward neighbours of a voxel come after it in the buffer. */
  lemma BackwardNeighboursAfter(d: Dims, x: int, y: int, z: int)
    requires d.Ok() && d.Contains(x, y, z)
    ensures forall k :: 0 <= k < |BackwardOffsets| && InBox(d, x, y, z, BackwardOffsets[k]) ==>
      Idx(d, x + BackwardOffsets[k].dx, y + BackwardOffsets[k].dy, z + BackwardOffsets[k].dz) > Idx(d, x, y, z)
  {
    BackwardOffsetsShape();
    forall k | 0 <= k < |BackwardOffsets| && InBox(d, x, y, z, BackwardOffsets[k])
      ensures Idx(d, x + BackwardOffsets[k].dx, y + BackwardOffsets[k].dy, z + BackwardOffsets[k].dz) > Idx(d, x, y, z)
    {
      var o := BackwardOffsets[k];
      assert o in BackwardOffsets;
      IdxLexLess(d, x, y, z, x + o.dx, y + o.dy, z + o.dz);
    }
  }

  /** Forward consistency of a voxel reads only positions up to its own. */
  lemma ForwardFrame(a: seq<int>, b: seq<int>, d: Dims, x: int, y: int, z: int, bound: int)
    requires d.Ok() && |a| == d.Size() && |b| == d.Size() && d.Contains(x, y, z)
    requires Idx(d, x, y, z) < bound
    requires forall q :: 0 <= q < |a| && q < bound ==> a[q] == b[q]
    requires LocallyConsistent(a, d, x, y, z, ForwardOffsets)
    ensures LocallyConsistent(b, d, x, y, z, ForwardOffsets)
  {
    ForwardNeighboursBefore(d, x, y, z);
  }

  /** Backward consistency of a voxel reads only positions from its own on. */
  lemma BackwardFrame(a: seq<int>, b: seq<int>, d: Dims, x: int, y: int, z: int, bound: int)
    requires d.Ok() && |a| == d.Size() && |b| == d.Size() && d.Contains(x, y, z)
    requires Idx(d, x, y, z) > bound
    requires forall q :: 0 <= q < |a| && q > bound ==> a[q] == b[q]
    requires LocallyConsistent(a, d, x, y, z, BackwardOffsets)
    ensures LocallyConsistent(b, d, x, y, z, BackwardOffsets)
  {
    BackwardNeighboursAfter(d, x, y, z);
  }

  /** What the forward pass writes at a voxel reads only positions before
      it. */
  lemma ForwardAtFrame(a: seq<int>, b: seq<int>, bin: seq<byte>, d: Dims, inf: int, x: int, y: int, z: int, bound: int)
    requires d.Ok() && |a| == d.Size() && |b| == d.Size() && |bin| == d.Size() && d.Contains(x, y, z)
    requires Idx(d, x, y, z) <= bound
    requires forall q :: 0 <= q < |a| && q < bound ==> a[q] == b[q]
    ensures ForwardAt(a, bin, d, inf, x, y, z) == ForwardAt(b, bin, d, inf, x, y, z)
  {
    ForwardNeighboursBefore(d, x, y, z);
    RelaxedFrame(a, b, d, x, y, z, ForwardOffsets, inf);
  }

  /** What the backward pass writes at a voxel reads only positions after
      it. */
  lemma BackwardAtFrame(a: seq<int>, b: seq<int>, fwd: seq<int>, d: Dims, x: int, y: int, z: int, bound: int)
    requires d.Ok() && |a| == d.Size() && |b| == d.Size() && |fwd| == d.Size() && d.Contains(x, y, z)
    requires Idx(d, x, y, z) >= bound
    requires forall q :: 0 <= q < |a| && q > bound ==> a[q] == b[q]
    ensures BackwardAt(a, fwd, d, x, y, z) == BackwardAt(b, fwd, d, x, y, z)
  {
    BackwardNeighboursAfter(d, x, y, z);
    RelaxedFrame(a, b, d, x, y, z, BackwardOffsets, fwd[Idx(d, x, y, z)]);
  }

  /** The value the forward pass gives voxel (x, y, z) is settled (`inf` when
      there are no points) and no larger than any forward neighbour plus its
      step. */
  lemma ForwardValue(vals: seq<int>, bin: seq<byte>, d: Dims, inf: int, x: int, y: int, z: int, v: int)
    requires d.Ok() && |vals| == d.Size() && |bin| == d.Size() && d.Contains(x, y, z) && inf >= STEP1
    requires forall q :: 0 <= q < |vals| && q < Idx(d, x, y, z) ==> Settled(vals[q], bin[q], inf)
    requires NoPoints(bin) ==> forall q :: 0 <= q < |vals| && q < Idx(d, x, y, z) ==> vals[q] == inf
    requires v == if bin[Idx(d, x, y, z)] == 0 then 0 else Relaxed(vals, d, x, y, z, ForwardOffsets, inf)
    ensures Settled(v, bin[Idx(d, x, y, z)], inf)
    ensures NoPoints(bin) ==> v == inf
    ensures forall k :: 0 <= k < |ForwardOffsets| && InBox(d, x, y, z, ForwardOffsets[k]) ==>
      v <= Neighbour(vals, d, x, y, z, ForwardOffsets[k]) + ForwardOffsets[k].w
  {
    var p := Idx(d, x, y, z);
    ForwardOffsetsShape();
    ForwardNeighboursBefore(d, x, y, z);
    forall k | 0 <= k < |ForwardOffsets| && InBox(d, x, y, z, ForwardOffsets[k])
      ensures Neighbour(vals, d, x, y, z, ForwardOffsets[k]) + ForwardOffsets[k].w >= STEP1
      ensures NoPoints(bin) ==> Neighbour(vals, d, x, y, z, ForwardOffsets[k]) + ForwardOffsets[k].w >= inf
    {
      var o := ForwardOffsets[k];
      assert o in ForwardOffsets;
      var nq := Idx(d, x + o.dx, y + o.dy, z + o.dz);
      assert Settled(vals[nq], bin[nq], inf);
    }
    if bin[p] != 0 {
      RelaxedUpper(vals, d, x, y, z, ForwardOffsets, inf);
      RelaxedLower(vals, d, x, y, z, ForwardOffsets, inf, STEP1);
      if NoPoints(bin) {
        RelaxedLower(vals, d, x, y, z, ForwardOffsets, inf, inf);
      }
    }
  }

  /** Writing voxel (x, y, z) leaves the voxels before it as the forward
      pass made them. */
  lemma ForwardEarlierKept(vals: seq<int>, nv: seq<int>, bin: seq<byte>, d: Dims, inf: int, x: int, y: int, z: int)
    requires d.Ok() && |vals| == d.Size() && |nv| == d.Size() && |bin| == d.Size() && d.Contains(x, y, z)
    requires forall q :: 0 <= q < |vals| && q < Idx(d, x, y, z) ==> vals[q] == nv[q]
    requires forall a, b, c :: d.Contains(a, b, c) && LexBefore(a, b, c, x, y, z) ==>
      LocallyConsistent(vals, d, a, b, c, ForwardOffsets) && vals[Idx(d, a, b, c)] == ForwardAt(vals, bin, d, inf, a, b, c)
    ensures forall a, b, c :: d.Contains(a, b, c) && LexBefore(a, b, c, x, y, z) ==>
      LocallyConsistent(nv, d, a, b, c, ForwardOffsets) && nv[Idx(d, a, b, c)] == ForwardAt(nv, bin, d, inf, a, b, c)
  {
    var p := Idx(d, x, y, z);
    forall a, b, c | d.Contains(a, b, c) && LexBefore(a, b, c, x, y, z)
      ensures LocallyConsistent(nv, d, a, b, c, ForwardOffsets)
      ensures nv[Idx(d, a, b, c)] == ForwardAt(nv, bin, d, inf, a, b, c)
    {
      IdxLexLess(d, a, b, c, x, y, z);
      ForwardFrame(vals, nv, d, a, b, c, p);
      ForwardAtFrame(vals, nv, bin, d, inf, a, b, c, p);
    }
  }

  /** One voxel of the forward pass keeps the invariant. */
  lemma ForwardStep(vals: seq<int>, bin: seq<byte>, d: Dims, inf: int, x: int, y: int, z: int, v: int)
    requires d.Ok() && |vals| == d.Size() && |bin| == d.Size() && d.Contains(x, y, z) && inf >= STEP1
    requires ForwardDone(vals, bin, d, inf, x, y, z)
    requires v == if bin[Idx(d, x, y, z)] == 0 then 0 else Relaxed(vals, d, x, y, z, ForwardOffsets, inf)
    ensures ForwardDone(vals[Idx(d, x, y, z) := v], bin, d, inf, x + 1, y, z)
  {
    var p := Idx(d, x, y, z);
    var nv := vals[p := v];
    ForwardValue(vals, bin, d, inf, x, y, z, v);
    ForwardNeighboursBefore(d, x, y, z);
    assert LocallyConsistent(nv, d, x, y, z, ForwardOffsets);
    ForwardAtFrame(vals, nv, bin, d, inf, x, y, z, p);
    assert nv[p] == ForwardAt(nv, bin, d, inf, x, y, z);
    ForwardEarlierKept(vals, nv, bin, d, inf, x, y, z);
    forall a, b, c | d.Contains(a, b, c) && LexBefore(a, b, c, x + 1, y, z)
      ensures LocallyConsistent(nv, d, a, b, c, ForwardOffsets) && nv[Idx(d, a, b, c)] == ForwardAt(nv, bin, d, inf, a, b, c)
    {
      if !LexBefore(a, b, c, x, y, z) {
        assert a == x && b == y && c == z;
      }
    }
    assert Idx(d, x + 1, y, z) == p + 1;
  }

  lemma ForwardRowEnd(vals: seq<int>, bin: seq<byte>, d: Dims, inf: int, y: int, z: int)
    requires d.Ok() && |vals| == d.Size() && |bin| == d.Size()
    requires ForwardDone(vals, bin, d, inf, d.mx, y, z)
    ensures ForwardDone(vals, bin, d, inf, 0, y + 1, z)
  {
    IdxRowEnd(d, y, z);
  }

  lemma ForwardPlaneEnd(vals: seq<int>, bin: seq<byte>, d: Dims, inf: int, z: int)
    requires d.Ok() && |vals| == d.Size() && |bin| == d.Size()
    requires ForwardDone(vals, bin, d, inf, 0, d.my, z)
    ensures ForwardDone(vals, bin, d, inf, 0, 0, z + 1)
  {
    IdxPlaneEnd(d, z);
  }

  /** The body of the forward x loop: a point voxel gets 0, any other the
      least of `infinity` and its forward neighbours plus their steps. */
  method ForwardVoxel(b: BinaryImage, v: IntImage, infinity: int, x: int, y: int, z: int)
    requires b.Valid() && v.Valid() && v.Shape() == b.Shape() && infinity >= STEP1
    requires v.Shape().Contains(x, y, z)
    requires ForwardDone(v.data[..], b.data[..], v.Shape(), infinity, x, y, z)
    modifies v.data
    ensures v.data[..] == old(v.data[..])[Idx(v.Shape(), x, y, z) := ForwardAt(old(v.data[..]), b.data[..], v.Shape(), infinity, x, y, z)]
    ensures ForwardDone(v.data[..], b.data[..], v.Shape(), infinity, x + 1, y, z)
  {
    var d := v.Shape();
    var p := Idx(d, x, y, z);
    ghost var before := v.data[..];
    if b.data[p] == 0 {
      v.data[p] := 0;
    } else {
      var q := Relax(v, x, y, z, ForwardOffsets, infinity);
      v.data[p] := q;
    }
    assert v.data[..] == before[p := v.data[p]];
    ForwardStep(before, b.data[..], d, infinity, x, y, z, v.data[p]);
  }

  /** The forward x loop over row y of plane z. */
  method ForwardRow(b: BinaryImage, v: IntImage, infinity: int, y: int, z: int)
    requires b.Valid() && v.Valid() && v.Shape() == b.Shape() && infinity >= STEP1
    requires 0 <= y < v.My && 0 <= z < v.Mz
    requires ForwardDone(v.data[..], b.data[..], v.Shape(), infinity, 0, y, z)
    modifies v.data
    ensures ForwardDone(v.data[..], b.data[..], v.Shape(), infinity, 0, y + 1, z)
  {
    var x := 0;
    while x < b.Mx
      invariant 0 <= x <= v.Mx
      invariant ForwardDone(v.data[..], b.data[..], v.Shape(), infinity, x, y, z)
    {
      ForwardVoxel(b, v, infinity, x, y, z);
      x := x + 1;
    }
    ForwardRowEnd(v.data[..], b.data[..], v.Shape(), infinity, y, z);
  }

  /** Forward pass: visit z, then y, then x in increasing order; a voxel on a
      point gets 0, any other voxel the least of `infinity` and its
      bounds-checked forward neighbours plus their steps, reading the values
      already written. */
  method ForwardPass(b: BinaryImage, v: IntImage, infinity: int)
    requires b.Valid() && v.Valid() && v.Shape() == b.Shape() && infinity >= STEP1
    modifies v.data
    ensures forall q :: 0 <= q < v.length ==> Settled(v.data[q], b.data[q], infinity)
    ensures NoPoints(b.data[..]) ==> forall q :: 0 <= q < v.length ==> v.data[q] == infinity
    ensures forall x, y, z :: v.Shape().Contains(x, y, z) ==>
      LocallyConsistent(v.data[..], v.Shape(), x, y, z, ForwardOffsets)
    ensures IsForwardField(v.data[..], b.data[..], v.Shape(), infinity)
  {
    var d := v.Shape();
    var z := 0;
    while z < b.Mz
      invariant 0 <= z <= d.mz
      invariant ForwardDone(v.data[..], b.data[..], d, infinity, 0, 0, z)
    {
      var y := 0;
      while y < b.My
        invariant 0 <= y <= d.my
        invariant ForwardDone(v.data[..], b.data[..], d, infinity, 0, y, z)
      {
        ForwardRow(b, v, infinity, y, z);
        y := y + 1;
      }
      ForwardPlaneEnd(v.data[..], b.data[..], d, infinity, z);
      z := z + 1;
    }
    IdxPlaneEnd(d, 0);
  }

  /** Backward-pass invariant with the cursor at (cx, cy, cz), against the
      forward-pass result fwd: the voxels up to the cursor still hold fwd, no
      voxel has risen, zeros stay exactly the zeros, values stay in
      [STEP1, inf], an all-`inf` field stays so, and every voxel after the
      cursor is consistent with its backward neighbours and holds what the
      backward pass writes there. */
  ghost predicate BackwardDone(vals: seq<int>, fwd: seq<int>, d: Dims, inf: int, cx: int, cy: int, cz: int)
    requires d.Ok() && |vals| == d.Size() && |fwd| == d.Size()
  {
    (forall q :: 0 <= q < |vals| && q <= Idx(d, cx, cy, cz) ==> vals[q] == fwd[q]) &&
    (forall q :: 0 <= q < |vals| ==>
      vals[q] <= fwd[q] && (vals[q] == 0 <==> fwd[q] == 0) && (vals[q] == 0 || STEP1 <= vals[q] <= inf)) &&
    ((forall q :: 0 <= q < |fwd| ==> fwd[q] == inf) ==> forall q :: 0 <= q < |vals| ==> vals[q] == inf) &&
    (forall x, y, z :: d.Contains(x, y, z) && LexBefore(cx, cy, cz, x, y, z) ==>
      LocallyConsistent(vals, d, x, y, z, BackwardOffsets) && vals[Idx(d, x, y, z)] == BackwardAt(vals, fwd, d, x, y, z))
  }

  /** The value the backward pass gives voxel (x, y, z): no larger than
      before, zero exactly when it was, within [STEP1, inf] otherwise, still
      `inf` on an all-`inf` field, and no larger than any backward neighbour
      plus its step. */
  lemma BackwardValue(vals: seq<int>, fwd: seq<int>, d: Dims, inf: int, x: int, y: int, z: int, v: int)
    requires d.Ok() && |vals| == d.Size() && |fwd| == d.Size() && d.Contains(x, y, z) && inf >= STEP1
    requires BackwardDone(vals, fwd, d, inf, x, y, z)
    requires v == if vals[Idx(d, x, y, z)] == 0 then 0
                  else Relaxed(vals, d, x, y, z, BackwardOffsets, vals[Idx(d, x, y, z)])
    ensures v <= vals[Idx(d, x, y, z)] && (v == 0 <==> vals[Idx(d, x, y, z)] == 0)
    ensures v == 0 || STEP1 <= v <= inf
    ensures (forall q :: 0 <= q < |fwd| ==> fwd[q] == inf) ==> v == inf
    ensures forall k :: 0 <= k < |BackwardOffsets| && InBox(d, x, y, z, BackwardOffsets[k]) ==>
      v <= Neighbour(vals, d, x, y, z, BackwardOffsets[k]) + BackwardOffsets[k].w
  {
    var p := Idx(d, x, y, z);
    BackwardOffsetsShape();
    assert forall k :: 0 <= k < |BackwardOffsets| ==> BackwardOffsets[k] in BackwardOffsets;
    if vals[p] != 0 {
      RelaxedUpper(vals, d, x, y, z, BackwardOffsets, vals[p]);
      RelaxedLower(vals, d, x, y, z, BackwardOffsets, vals[p], STEP1);
      if forall q :: 0 <= q < |fwd| ==> fwd[q] == inf {
        RelaxedLower(vals, d, x, y, z, BackwardOffsets, vals[p], inf);
      }
    }
  }

  /** Writing voxel (x, y, z) leaves the voxels after it as the backward
      pass made them. */
  lemma BackwardLaterKept(vals: seq<int>, nv: seq<int>, fwd: seq<int>, d: Dims, x: int, y: int, z: int)
    requires d.Ok() && |vals| == d.Size() && |nv| == d.Size() && |fwd| == d.Size() && d.Contains(x, y, z)
    requires forall q :: 0 <= q < |vals| && q > Idx(d, x, y, z) ==> vals[q] == nv[q]
    requires forall a, b, c :: d.Contains(a, b, c) && LexBefore(x, y, z, a, b, c) ==>
      LocallyConsistent(vals, d, a, b, c, BackwardOffsets) && vals[Idx(d, a, b, c)] == BackwardAt(vals, fwd, d, a, b, c)
    ensures forall a, b, c :: d.Contains(a, b, c) && LexBefore(x, y, z, a, b, c) ==>
      LocallyConsistent(nv, d, a, b, c, BackwardOffsets) && nv[Idx(d, a, b, c)] == BackwardAt(nv, fwd, d, a, b, c)
  {
    var p := Idx(d, x, y, z);
    forall a, b, c | d.Contains(a, b, c) && LexBefore(x, y, z, a, b, c)
      ensures LocallyConsistent(nv, d, a, b, c, BackwardOffsets)
      ensures nv[Idx(d, a, b, c)] == BackwardAt(nv, fwd, d, a, b, c)
    {
      IdxLexLess(d, x, y, z, a, b, c);
      BackwardFrame(vals, nv, d, a, b, c, p);
      BackwardAtFrame(vals, nv, fwd, d, a, b, c, p);
    }
  }

  /** One voxel of the backward pass keeps the invariant. */
  lemma BackwardStep(vals: seq<int>, fwd: seq<int>, d: Dims, inf: int, x: int, y: int, z: int, v: int)
    requires d.Ok() && |vals| == d.Size() && |fwd| == d.Size() && d.Contains(x, y, z) && inf >= STEP1
    requires BackwardDone(vals, fwd, d, inf, x, y, z)
    requires v == if vals[Idx(d, x, y, z)] == 0 then 0
                  else Relaxed(vals, d, x, y, z, BackwardOffsets, vals[Idx(d, x, y, z)])
    ensures BackwardDone(vals[Idx(d, x, y, z) := v], fwd, d, inf, x - 1, y, z)
  {
    var p := Idx(d, x, y, z);
    var nv := vals[p := v];
    BackwardValue(vals, fwd, d, inf, x, y, z, v);
    BackwardNeighboursAfter(d, x, y, z);
    assert LocallyConsistent(nv, d, x, y, z, BackwardOffsets);
    BackwardAtFrame(vals, nv, fwd, d, x, y, z, p);
    assert nv[p] == BackwardAt(nv, fwd, d, x, y, z);
    BackwardLaterKept(vals, nv, fwd, d, x, y, z);
    forall a, b, c | d.Contains(a, b, c) && LexBefore(x - 1, y, z, a, b, c)
      ensures LocallyConsistent(nv, d, a, b, c, BackwardOffsets) && nv[Idx(d, a, b, c)] == BackwardAt(nv, fwd, d, a, b, c)
    {
      if !LexBefore(x, y, z, a, b, c) {
        assert a == x && b == y && c == z;
      }
    }
    assert Idx(d, x - 1, y, z) == p - 1;
  }

  lemma BackwardRowEnd(vals: seq<int>, fwd: seq<int>, d: Dims, inf: int, y: int, z: int)
    requires d.Ok() && |vals| == d.Size() && |fwd| == d.Size()
    requires BackwardDone(vals, fwd, d, inf, -1, y, z)
    ensures BackwardDone(vals, fwd, d, inf, d.mx - 1, y - 1, z)
  {
    IdxRowEnd(d, y - 1, z);
  }

  lemma BackwardPlaneEnd(vals: seq<int>, fwd: seq<int>, d: Dims, inf: int, z: int)
    requires d.Ok() && |vals| == d.Size() && |fwd| == d.Size()
    requires BackwardDone(vals, fwd, d, inf, d.mx - 1, -1, z)
    ensures BackwardDone(vals, fwd, d, inf, d.mx - 1, d.my - 1, z - 1)
  {
    IdxPlaneEnd(d, z - 1);
    MulSucc(d.my, d.mx);
  }

  /** Before the backward pass nothing is visited yet. */
  lemma BackwardStart(fwd: seq<int>, d: Dims, inf: int)
    requires d.Ok() && |fwd| == d.Size()
    requires forall q :: 0 <= q < |fwd| ==> fwd[q] == 0 || STEP1 <= fwd[q] <= inf
    ensures BackwardDone(fwd, fwd, d, inf, d.mx - 1, d.my - 1, d.mz - 1)
  {
  }

  /** After the backward pass every voxel is visited. */
  lemma BackwardFinish(vals: seq<int>, fwd: seq<int>, d: Dims, inf: int)
    requires d.Ok() && |vals| == d.Size() && |fwd| == d.Size()
    requires BackwardDone(vals, fwd, d, inf, d.mx - 1, d.my - 1, -1)
    ensures forall q :: 0 <= q < |vals| ==>
      vals[q] <= fwd[q] && (vals[q] == 0 <==> fwd[q] == 0) && (vals[q] == 0 || STEP1 <= vals[q] <= inf)
    ensures (forall q :: 0 <= q < |fwd| ==> fwd[q] == inf) ==> forall q :: 0 <= q < |vals| ==> vals[q] == inf
    ensures forall x, y, z :: d.Contains(x, y, z) ==> LocallyConsistent(vals, d, x, y, z, BackwardOffsets)
    ensures IsBackwardField(vals, fwd, d)
  {
  }

  /** The body of the backward x loop: a non-zero voxel drops to the least
      of its value and its backward neighbours plus their steps. */
  method BackwardVoxel(v: IntImage, ghost fwd: seq<int>, infinity: int, x: int, y: int, z: int)
    requires v.Valid() && infinity >= STEP1 && |fwd| == v.length
    requires v.Shape().Contains(x, y, z)
    requires BackwardDone(v.data[..], fwd, v.Shape(), infinity, x, y, z)
    modifies v.data
    ensures v.data[..] == old(v.data[..])[Idx(v.Shape(), x, y, z) :=
      if old(v.data[Idx(v.Shape(), x, y, z)]) == 0 then 0
      else Relaxed(old(v.data[..]), v.Shape(), x, y, z, BackwardOffsets, old(v.data[Idx(v.Shape(), x, y, z)]))]
    ensures BackwardDone(v.data[..], fwd, v.Shape(), infinity, x - 1, y, z)
  {
    var d := v.Shape();
    var p := Idx(d, x, y, z);
    ghost var before := v.data[..];
    var q := v.data[p];
    if q != 0 {
      q := Relax(v, x, y, z, BackwardOffsets, q);
      v.data[p] := q;
    }
    assert v.data[..] == before[p := q];
    BackwardStep(before, fwd, d, infinity, x, y, z, q);
  }

  /** The backward x loop over row y of plane z. */
  method BackwardRow(v: IntImage, ghost fwd: seq<int>, infinity: int, y: int, z: int)
    requires v.Valid() && infinity >= STEP1 && |fwd| == v.length
    requires 0 <= y < v.My && 0 <= z < v.Mz
    requires BackwardDone(v.data[..], fwd, v.Shape(), infinity, v.Mx - 1, y, z)
    modifies v.data
    ensures BackwardDone(v.data[..], fwd, v.Shape(), infinity, v.Mx - 1, y - 1, z)
  {
    var x := v.Mx - 1;
    while x >= 0
      invariant -1 <= x < v.Mx
      invariant BackwardDone(v.data[..], fwd, v.Shape(), infinity, x, y, z)
    {
      BackwardVoxel(v, fwd, infinity, x, y, z);
      x := x - 1;
    }
    BackwardRowEnd(v.data[..], fwd, v.Shape(), infinity, y, z);
  }

  /** The backward y loop over plane z. */
  method BackwardPlane(v: IntImage, ghost fwd: seq<int>, infinity: int, z: int)
    requires v.Valid() && infinity >= STEP1 && |fwd| == v.length
    requires 0 <= z < v.Mz
    requires BackwardDone(v.data[..], fwd, v.Shape(), infinity, v.Mx - 1, v.My - 1, z)
    modifies v.data
    ensures BackwardDone(v.data[..], fwd, v.Shape(), infinity, v.Mx - 1, v.My - 1, z - 1)
  {
    var y := v.My - 1;
    while y >= 0
      invariant -1 <= y < v.My
      invariant BackwardDone(v.data[..], fwd, v.Shape(), infinity, v.Mx - 1, y, z)
    {
      BackwardRow(v, fwd, infinity, y, z);
      y := y - 1;
    }
    BackwardPlaneEnd(v.data[..], fwd, v.Shape(), infinity, z);
  }

  /** Backward pass: visit z, then y, then x in decreasing order; a non-zero
      voxel is lowered to the least of its value and its bounds-checked
      backward neighbours plus their steps, reading the values already
      written, and a zero voxel is left alone. No voxel rises, and afterwards
      every voxel is consistent with its backward neighbours. */
  method BackwardPass(v: IntImage, infinity: int)
    requires v.Valid() && infinity >= STEP1
    requires forall q :: 0 <= q < v.length ==> v.data[q] == 0 || STEP1 <= v.data[q] <= infinity
    modifies v.data
    ensures forall q :: 0 <= q < v.length ==>
      v.data[q] <= old(v.data[q]) && (v.data[q] == 0 <==> old(v.data[q]) == 0) &&
      (v.data[q] == 0 || STEP1 <= v.data[q] <= infinity)
    ensures (forall q :: 0 <= q < v.length ==> old(v.data[q]) == infinity) ==>
      forall q :: 0 <= q < v.length ==> v.data[q] == infinity
    ensures forall x, y, z :: v.Shape().Contains(x, y, z) ==>
      LocallyConsistent(v.data[..], v.Shape(), x, y, z, BackwardOffsets)
    ensures IsBackwardField(v.data[..], old(v.data[..]), v.Shape())
  {
    var d := v.Shape();
    ghost var fwd := v.data[..];
    BackwardStart(fwd, d, infinity);
    var z := v.Mz - 1;
    while z >= 0
      invariant -1 <= z < d.mz
      invariant BackwardDone(v.data[..], fwd, d, infinity, d.mx - 1, d.my - 1, z)
    {
      BackwardPlane(v, fwd, infinity, z);
      z := z - 1;
    }
    BackwardFinish(v.data[..], fwd, d, infinity);
  }

  /** What distrans3 guarantees of its output for the binary image bin:
      exactly the point voxels are 0, every other voxel holds a distance in
      [STEP1, inf] (exactly inf when there are no points), and every voxel is
      consistent with its backward neighbours. */
  ghost predicate IsChamferField(vals: seq<int>, bin: seq<byte>, d: Dims, inf: int)
    requires d.Ok() && |vals| == d.Size() && |bin| == d.Size()
  {
    (forall q :: 0 <= q < |vals| ==>
      (vals[q] == 0 <==> bin[q] == 0) && (bin[q] != 0 ==> STEP1 <= vals[q] <= inf)) &&
    (NoPoints(bin) ==> forall q :: 0 <= q < |vals| ==> vals[q] == inf) &&
    (forall x, y, z :: d.Contains(x, y, z) ==> LocallyConsistent(vals, d, x, y, z, BackwardOffsets))
  }

  /** distrans3. `fails` stands for the host allocator returning null; fwd
      is the field the forward pass leaves for the backward pass. */
  method Distrans3(b: BinaryImage, v: IntImage, fails: bool) returns (ok: bool, ghost fwd: seq<int>)
    requires b.Valid()
    modifies v
    ensures v.Shape() == b.Shape()
    ensures ok <==> !fails
    ensures ok ==> v.Valid() && fresh(v.data)
    ensures ok ==> IsChamferField(v.data[..], b.data[..], v.Shape(), Infinity(v.Shape()))
    ensures ok ==> ChamferPasses(v.data[..], fwd, b.data[..], v.Shape(), Infinity(v.Shape()))
  {
    fwd := [];
    v.Mx := b.Mx;
    v.My := b.My;
    v.Mz := b.Mz;

    ok := v.Alloc(fails);
    if !ok {
      return;
    }

    var infinity := Infinity(b.Shape());
    ForwardPass(b, v, infinity);
    fwd := v.data[..];
    BackwardPass(v, infinity);
  }

  /** The forward field of a binary image is unique: two fields that both
      hold, at every voxel, what the forward pass writes there agree on
      every position before k. */
  lemma {:induction false} ForwardPrefixAgree(a: seq<int>, b: seq<int>, bin: seq<byte>, d: Dims, inf: int, k: int)
    requires d.Ok() && |a| == d.Size() && |b| == d.Size() && |bin| == d.Size() && 0 <= k <= d.Size()
    requires IsForwardField(a, bin, d, inf) && IsForwardField(b, bin, d, inf)
    ensures forall q :: 0 <= q < k ==> a[q] == b[q]
    decreases k
  {
    if k > 0 {
      ForwardPrefixAgree(a, b, bin, d, inf, k - 1);
      var x, y, z := Coords(d, k - 1);
      ForwardAtFrame(a, b, bin, d, inf, x, y, z, k - 1);
    }
  }

  /** Likewise the backward field of a forward field, on every position
      from k on. */
  lemma {:induction false} BackwardSuffixAgree(a: seq<int>, b: seq<int>, fwd: seq<int>, d: Dims, k: int)
    requires d.Ok() && |a| == d.Size() && |b| == d.Size() && |fwd| == d.Size() && 0 <= k <= d.Size()
    requires IsBackwardField(a, fwd, d) && IsBackwardField(b, fwd, d)
    ensures forall q :: k <= q < d.Size() ==> a[q] == b[q]
    decreases d.Size() - k
  {
    if k < d.Size() {
      BackwardSuffixAgree(a, b, fwd, d, k + 1);
      var x, y, z := Coords(d, k);
      BackwardAtFrame(a, b, fwd, d, x, y, z, k);
    }
  }

  /** The two passes determine their result: for a given binary image there
      is exactly one forward field and one final field, so distrans3's
      output is a function of its input. */
  lemma ChamferPassesUnique(a: seq<int>, fa: seq<int>, b: seq<int>, fb: seq<int>, bin: seq<byte>, d: Dims, inf: int)
    requires d.Ok() && |a| == d.Size() && |b| == d.Size() && |bin| == d.Size()
    requires ChamferPasses(a, fa, bin, d, inf) && ChamferPasses(b, fb, bin, d, inf)
    ensures fa == fb && a == b
  {
    ForwardPrefixAgree(fa, fb, bin, d, inf, d.Size());
    assert fa == fb;
    BackwardSuffixAgree(a, b, fa, d, 0);
    assert a == b;
  }

  /** In a grid one voxel high and deep, the only neighbours inside the box
      are the ones along the row, one step away. */
  lemma RowNeighbour(d: Dims, x: int, o: Offset)
    requires d.Ok() && d.my == 1 && d.mz == 1 && InBox(d, x, 0, 0, o) && WellWeighted(o)
    ensures o.dy == 0 && o.dz == 0 && (o.dx == -1 || o.dx == 1) && o.w == STEP1
  {
  }

  /** infinity exceeds the weight of the longest straight diagonal run along
      x, so no path along a row reaches it. */
  lemma InfinityBeyondRow(d: Dims)
    requires d.Ok()
    ensures Infinity(d) > STEP3 * d.mx
  {
    var inf := Infinity(d);
    var t := STEP3 * d.mx;
    if inf <= t {
      MulLe(inf, t, inf);
      MulLe(inf, t, t);
    }
  }

  /** On a row one voxel high and deep whose only point is its first voxel,
      the forward pass gives voxel x the value 41 * x. */
  lemma {:induction false} RowForward(fwd: seq<int>, bin: seq<byte>, d: Dims, inf: int, x: int)
    requires d.Ok() && d.my == 1 && d.mz == 1 && |fwd| == d.Size() && |bin| == d.Size()
    requires bin[0] == 0 && forall q :: 0 < q < |bin| ==> bin[q] != 0
    requires IsForwardField(fwd, bin, d, inf) && STEP1 * (d.mx - 1) <= inf
    requires 0 <= x < d.mx
    ensures fwd[x] == STEP1 * x
    decreases x
  {
    assert Idx(d, x, 0, 0) == x;
    assert fwd[x] == ForwardAt(fwd, bin, d, inf, x, 0, 0);
    if x > 0 {
      RowForward(fwd, bin, d, inf, x - 1);
      assert Idx(d, x - 1, 0, 0) == x - 1;
      ForwardOffsetsShape();
      RelaxedUpper(fwd, d, x, 0, 0, ForwardOffsets, inf);
      assert InBox(d, x, 0, 0, ForwardOffsets[0]);
      RelaxedAttained(fwd, d, x, 0, 0, ForwardOffsets, inf);
      if fwd[x] != inf {
        var k :| 0 <= k < |ForwardOffsets| && InBox(d, x, 0, 0, ForwardOffsets[k]) &&
          fwd[x] == Neighbour(fwd, d, x, 0, 0, ForwardOffsets[k]) + ForwardOffsets[k].w;
        assert ForwardOffsets[k] in ForwardOffsets;
        RowNeighbour(d, x, ForwardOffsets[k]);
      }
    }
  }

  /** On such a row, with the forward field 41 * x, the backward pass
      changes nothing: every voxel x keeps 41 * x. */
  lemma {:induction false} RowBackward(vals: seq<int>, fwd: seq<int>, d: Dims, x: int)
    requires d.Ok() && d.my == 1 && d.mz == 1 && |vals| == d.Size() && |fwd| == d.Size()
    requires forall q :: 0 <= q < |fwd| ==> fwd[q] == STEP1 * q
    requires IsBackwardField(vals, fwd, d)
    requires 0 <= x < d.mx
    ensures vals[x] == STEP1 * x
    decreases d.mx - x
  {
    assert Idx(d, x, 0, 0) == x;
    assert vals[x] == BackwardAt(vals, fwd, d, x, 0, 0);
    if x > 0 {
      if x + 1 < d.mx {
        RowBackward(vals, fwd, d, x + 1);
        assert Idx(d, x + 1, 0, 0) == x + 1;
      }
      BackwardOffsetsShape();
      RelaxedUpper(vals, d, x, 0, 0, BackwardOffsets, fwd[x]);
      RelaxedAttained(vals, d, x, 0, 0, BackwardOffsets, fwd[x]);
      forall k | 0 <= k < |BackwardOffsets| && InBox(d, x, 0, 0, BackwardOffsets[k])
        ensures Neighbour(vals, d, x, 0, 0, BackwardOffsets[k]) + BackwardOffsets[k].w > fwd[x]
      {
        assert BackwardOffsets[k] in BackwardOffsets;
        RowNeighbour(d, x, BackwardOffsets[k]);
      }
    }
  }

  /** On a row one voxel high and deep whose only point is its first voxel,
      distrans3 gives voxel x exactly 41 * x: on three voxels [0, 41, 82],
      and no other field. */
  lemma RowField(vals: seq<int>, fwd: seq<int>, bin: seq<byte>, d: Dims)
    requires d.Ok() && d.my == 1 && d.mz == 1 && |vals| == d.Size() && |bin| == d.Size()
    requires bin[0] == 0 && forall q :: 0 < q < |bin| ==> bin[q] != 0
    requires ChamferPasses(vals, fwd, bin, d, Infinity(d))
    ensures forall x :: 0 <= x < |vals| ==> vals[x] == STEP1 * x
  {
    InfinityBeyondRow(d);
    forall x | 0 <= x < |fwd|
      ensures fwd[x] == STEP1 * x
    {
      RowForward(fwd, bin, d, Infinity(d), x);
    }
    forall x | 0 <= x < |vals|
      ensures vals[x] == STEP1 * x
    {
      RowBackward(vals, fwd, d, x);
    }
  }
}
