/** Voxel grid geometry shared by the whole pipeline: the chamfer step
    lengths, grid dimensions, the flat VALUE index, scan order and the
    bounds-checked neighbour offsets of the distance transform. */
module Grid {

  /** Step lengths of the chamfer transform: (41, 58, 71) / 41 approximates
      (1, sqrt 2, sqrt 3). */
  const STEP1: int := 41
  const STEP2: int := 58
  const STEP3: int := 71

  /** The MIN and MAX macros. */
  function Min(a: int, b: int): (r: int)
    ensures r <= a && r <= b && (r == a || r == b)
  {
    if a < b then a else b
  }

  function Max(a: int, b: int): (r: int)
    ensures r >= a && r >= b && (r == a || r == b)
  {
    if a > b then a else b
  }

  /** The C ceil of a real, converted to an integer. */
  function Ceil(r: real): (c: int)
    ensures c as real - 1.0 < r <= c as real
  {
    -((-r).Floor)
  }

  /** The C floor of a real, converted to an integer. */
  function Floor(r: real): (f: int)
    ensures f as real <= r < f as real + 1.0
  {
    r.Floor
  }

  /** Dimensions (Mx, My, Mz) of an image. */
  datatype Dims = Dims(mx: int, my: int, mz: int) {
    predicate Ok() {
      mx >= 1 && my >= 1 && mz >= 1
    }

    /** Number of voxels, the `length` field of an image. */
    function Size(): (s: int)
      ensures Ok() ==> s >= mx * my && s >= 1
    {
      if Ok() then SizeBounds(this); mx * my * mz else mx * my * mz
    }

    predicate Contains(x: int, y: int, z: int) {
      0 <= x < mx && 0 <= y < my && 0 <= z < mz
    }
  }

  lemma SizeBounds(d: Dims)
    requires d.Ok()
    ensures d.mx * d.my >= 1 && d.mx * d.my * d.mz >= d.mx * d.my
  {
    var p := d.mx * d.my;
    assert p >= d.mx;
    assert p * d.mz == p * (d.mz - 1) + p;
  }

  /** Offset of (x, y) inside its z-plane. */
  lemma PlaneOffsetBounds(d: Dims, x: int, y: int)
    requires d.Ok() && 0 <= x < d.mx && 0 <= y < d.my
    ensures 0 <= y * d.mx + x < d.mx * d.my
  {
    assert y * d.mx <= (d.my - 1) * d.mx;
    assert (d.my - 1) * d.mx + d.mx == d.mx * d.my;
  }

  /** The VALUE macro: position of voxel (x, y, z) in the flat buffer.
      Every voxel of the grid lands inside [0, Mx*My*Mz). */
  function Idx(d: Dims, x: int, y: int, z: int): (p: int)
    ensures d.Ok() && d.Contains(x, y, z) ==> 0 <= p < d.Size()
  {
    if d.Ok() && d.Contains(x, y, z) then
      IdxBounds(d, x, y, z); z * d.mx * d.my + y * d.mx + x
    else
      z * d.mx * d.my + y * d.mx + x
  }

  lemma IdxBounds(d: Dims, x: int, y: int, z: int)
    requires d.Ok() && d.Contains(x, y, z)
    ensures 0 <= z * d.mx * d.my + y * d.mx + x < d.mx * d.my * d.mz
  {
    var p := d.mx * d.my;
    PlaneOffsetBounds(d, x, y);
    assert z * d.mx * d.my == z * p;
    MulLe(0, z, p);
    MulLe(z, d.mz - 1, p);
    assert (d.mz - 1) * p + p == p * d.mz;
    assert p * d.mz == d.mx * d.my * d.mz;
  }

  /** Voxel a comes strictly before voxel b when z runs slowest and x fastest:
      the order of the forward sweep. */
  predicate LexBefore(ax: int, ay: int, az: int, cx: int, cy: int, cz: int) {
    az < cz || (az == cz && (ay < cy || (ay == cy && ax < cx)))
  }

  /** Multiplying by a non-negative factor keeps an ordering. */
  lemma MulLe(a: int, b: int, k: int)
    requires a <= b && k >= 0
    ensures a * k <= b * k
  {
    assert b * k - a * k == (b - a) * k;
  }

  /** One more factor adds one more k. */
  lemma MulSucc(a: int, k: int)
    ensures (a - 1) * k + k == a * k
  {
  }

  lemma MulNext(a: int, k: int)
    ensures (a + 1) * k == a * k + k
  {
  }

  /** A product by a positive factor determines the order of the factors. */
  lemma MulLtCancel(a: int, b: int, k: int)
    requires k > 0 && a * k < b * k
    ensures a < b
  {
    if a >= b {
      MulLe(b, a, k);
    }
  }

  /** The flat index splits into a plane part and an in-plane offset. */
  lemma IdxSplit(d: Dims, x: int, y: int, z: int)
    ensures Idx(d, x, y, z) == z * (d.mx * d.my) + (y * d.mx + x)
  {
  }

  /** Scan order is the order of the flat buffer. */
  lemma IdxLexLess(d: Dims, ax: int, ay: int, az: int, cx: int, cy: int, cz: int)
    requires d.Ok() && d.Contains(ax, ay, az) && d.Contains(cx, cy, cz)
    requires LexBefore(ax, ay, az, cx, cy, cz)
    ensures Idx(d, ax, ay, az) < Idx(d, cx, cy, cz)
  {
    var p := d.mx * d.my;
    IdxSplit(d, ax, ay, az);
    IdxSplit(d, cx, cy, cz);
    PlaneOffsetBounds(d, ax, ay);
    PlaneOffsetBounds(d, cx, cy);
    if az < cz {
      MulLe(az + 1, cz, p);
      MulNext(az, p);
    } else if ay < cy {
      MulLe(ay + 1, cy, d.mx);
      MulNext(ay, d.mx);
    }
  }

  /** Distinct voxels occupy distinct positions of the flat buffer. */
  lemma IdxInjective(d: Dims, ax: int, ay: int, az: int, cx: int, cy: int, cz: int)
    requires d.Ok() && d.Contains(ax, ay, az) && d.Contains(cx, cy, cz)
    requires Idx(d, ax, ay, az) == Idx(d, cx, cy, cz)
    ensures ax == cx && ay == cy && az == cz
  {
    if LexBefore(ax, ay, az, cx, cy, cz) {
      IdxLexLess(d, ax, ay, az, cx, cy, cz);
    } else if LexBefore(cx, cy, cz, ax, ay, az) {
      IdxLexLess(d, cx, cy, cz, ax, ay, az);
    }
  }

  /** Every position of the buffer is the VALUE of a voxel of the grid. */
  lemma Coords(d: Dims, q: int) returns (x: int, y: int, z: int)
    requires d.Ok() && 0 <= q < d.Size()
    ensures d.Contains(x, y, z) && Idx(d, x, y, z) == q
  {
    var p := d.mx * d.my;
    SizeBounds(d);
    z := q / p;
    var r := q % p;
    y := r / d.mx;
    x := r % d.mx;
    assert z * p + r == q;
    assert y * d.mx + x == r;
    assert p * d.mz == d.mx * d.my * d.mz;
    MulLtCancel(z, d.mz, p);
    assert d.my * d.mx == p;
    MulLtCancel(y, d.my, d.mx);
    IdxSplit(d, x, y, z);
  }

  /** The end of row y is the start of row y+1. */
  lemma IdxRowEnd(d: Dims, y: int, z: int)
    ensures Idx(d, d.mx, y, z) == Idx(d, 0, y + 1, z)
  {
    assert (y + 1) * d.mx == y * d.mx + d.mx;
  }

  /** The end of plane z is the start of plane z+1, and the end of the last
      plane is the end of the buffer. */
  lemma IdxPlaneEnd(d: Dims, z: int)
    ensures Idx(d, 0, d.my, z) == Idx(d, 0, 0, z + 1)
    ensures Idx(d, 0, 0, d.mz) == d.mx * d.my * d.mz
  {
    assert (z + 1) * d.mx * d.my == z * d.mx * d.my + d.mx * d.my;
    assert d.my * d.mx == d.mx * d.my;
    assert d.mz * d.mx * d.my == d.mx * d.my * d.mz;
  }

  /** A neighbour offset (DX, DY, DZ) with its step weight DV. */
  datatype Offset = Offset(dx: int, dy: int, dz: int, w: int)

  /** The INTERVAL macro: a move by dw from w stays in [0, mw). */
  function Interval(w: int, dw: int, mw: int): (r: bool)
    ensures r && 0 <= w < mw ==> 0 <= w + dw < mw
  {
    dw == 0 || (dw == -1 && w > 0) || (dw == 1 && w < mw - 1)
  }

  /** The BOX macro: the neighbour at offset o of voxel (x, y, z) lies in the
      grid. Guarding a read with it keeps the read inside the buffer. */
  function InBox(d: Dims, x: int, y: int, z: int, o: Offset): (r: bool)
    ensures r && d.Contains(x, y, z) ==> d.Contains(x + o.dx, y + o.dy, z + o.dz)
    ensures r && d.Ok() && d.Contains(x, y, z) ==>
      0 <= Idx(d, x + o.dx, y + o.dy, z + o.dz) < d.Size()
  {
    Interval(x, o.dx, d.mx) && Interval(y, o.dy, d.my) && Interval(z, o.dz, d.mz)
  }

  /** Step weight for a move with the given number of non-zero components. */
  function StepFor(o: Offset): int {
    var moves := (if o.dx != 0 then 1 else 0) + (if o.dy != 0 then 1 else 0) + (if o.dz != 0 then 1 else 0);
    if moves == 1 then STEP1 else if moves == 2 then STEP2 else STEP3
  }

  /** A unit move in the 26-neighbourhood carrying the weight of its shape. */
  predicate WellWeighted(o: Offset) {
    -1 <= o.dx <= 1 && -1 <= o.dy <= 1 && -1 <= o.dz <= 1 &&
    (o.dx != 0 || o.dy != 0 || o.dz != 0) &&
    o.w == StepFor(o) && o.w >= STEP1
  }

  /** The neighbour lies before the voxel in the forward scan. */
  predicate Precedes(o: Offset) {
    LexBefore(o.dx, o.dy, o.dz, 0, 0, 0)
  }

  /** The neighbour lies after the voxel in the forward scan. */
  predicate Follows(o: Offset) {
    LexBefore(0, 0, 0, o.dx, o.dy, o.dz)
  }

  function Mirror(o: Offset): Offset {
    Offset(-o.dx, -o.dy, -o.dz, o.w)
  }

  /** The thirteen TEST lines of the forward pass, in source order. */
  const ForwardOffsets: seq<Offset> := [
    Offset(-1, 0, 0, STEP1),
    Offset(-1, -1, 0, STEP2), Offset(0, -1, 0, STEP1), Offset(1, -1, 0, STEP2),
    Offset(1, 1, -1, STEP3), Offset(0, 1, -1, STEP2), Offset(-1, 1, -1, STEP3),
    Offset(1, 0, -1, STEP2), Offset(0, 0, -1, STEP1), Offset(-1, 0, -1, STEP2),
    Offset(1, -1, -1, STEP3), Offset(0, -1, -1, STEP2), Offset(-1, -1, -1, STEP3)
  ]

  /** The thirteen TEST lines of the backward pass, in source order. */
  const BackwardOffsets: seq<Offset> := [
    Offset(1, 0, 0, STEP1),
    Offset(-1, 1, 0, STEP2), Offset(0, 1, 0, STEP1), Offset(1, 1, 0, STEP2),
    Offset(1, 1, 1, STEP3), Offset(0, 1, 1, STEP2), Offset(-1, 1, 1, STEP3),
    Offset(1, 0, 1, STEP2), Offset(0, 0, 1, STEP1), Offset(-1, 0, 1, STEP2),
    Offset(1, -1, 1, STEP3), Offset(0, -1, 1, STEP2), Offset(-1, -1, 1, STEP3)
  ]

  /** Every forward offset reaches an already visited voxel and carries the
      weight of its shape. */
  lemma ForwardOffsetsShape()
    ensures |ForwardOffsets| == 13
    ensures forall o | o in ForwardOffsets :: Precedes(o) && WellWeighted(o)
  {
  }

  /** Every backward offset reaches a voxel already visited by the reversed
      scan and carries the weight of its shape. */
  lemma BackwardOffsetsShape()
    ensures |BackwardOffsets| == 13
    ensures forall o | o in BackwardOffsets :: Follows(o) && WellWeighted(o)
  {
  }

  /** The backward neighbourhood is the mirror image of the forward one. */
  lemma OffsetsMirror()
    ensures forall o | o in ForwardOffsets :: Mirror(o) in BackwardOffsets
    ensures forall o | o in BackwardOffsets :: Mirror(o) in ForwardOffsets
  {
  }
}
