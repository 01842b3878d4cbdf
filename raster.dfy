/** cts2bin: rasterising a point pattern in a box into a binary image whose
    voxels are 0 where a point falls and 1 elsewhere. Coordinates are
    modelled as exact reals. */
module Raster {
  import opened Grid
  import opened Images

  datatype Point = Point(x: real, y: real, z: real)

  /** The box [x0,x1] x [y0,y1] x [z0,z1]. */
  datatype Box = Box(x0: real, x1: real, y0: real, y1: real, z0: real, z1: real) {
    predicate Ok() {
      x0 <= x1 && y0 <= y1 && z0 <= z1
    }
  }

  /** Voxels along one axis: ceil(extent / vside) + 1. The grid covers the
      extent with at most one voxel to spare. */
  function AxisSize(lo: real, hi: real, vside: real): (m: int)
    requires vside > 0.0 && lo <= hi
    ensures m >= 1
    ensures (m - 2) as real < (hi - lo) / vside <= (m - 1) as real
  {
    Ceil((hi - lo) / vside) + 1
  }

  /** Dimensions cts2bin gives the image. */
  function GridOf(box: Box, vside: real): (d: Dims)
    requires vside > 0.0 && box.Ok()
    ensures d.Ok()
  {
    Dims(AxisSize(box.x0, box.x1, vside), AxisSize(box.y0, box.y1, vside), AxisSize(box.z0, box.z1, vside))
  }

  /** Voxel index of a coordinate: ceil((c - lo) / vside) - 1. Voxel l holds
      the coordinates whose offset from lo, in voxel sides, lies in (l, l+1]. */
  function VoxelCoord(c: real, lo: real, vside: real): (l: int)
    requires vside > 0.0
    ensures l as real < (c - lo) / vside <= (l + 1) as real
  {
    Ceil((c - lo) / vside) - 1
  }

  /** Point pt falls in voxel (x, y, z), which lies in grid d. */
  predicate Marks(pt: Point, box: Box, vside: real, d: Dims, x: int, y: int, z: int)
    requires vside > 0.0
  {
    d.Contains(x, y, z) &&
    VoxelCoord(pt.x, box.x0, vside) == x &&
    VoxelCoord(pt.y, box.y0, vside) == y &&
    VoxelCoord(pt.z, box.z0, vside) == z
  }

  /** Some point of the pattern falls in voxel (x, y, z). */
  ghost predicate Occupied(p: seq<Point>, box: Box, vside: real, d: Dims, x: int, y: int, z: int)
    requires vside > 0.0
  {
    exists i :: 0 <= i < |p| && Marks(p[i], box, vside, d, x, y, z)
  }

  /** Point pt falls in the grid, at flat position q. */
  predicate LandsAt(pt: Point, box: Box, vside: real, d: Dims, q: int)
    requires vside > 0.0
  {
    var lx, ly, lz := VoxelCoord(pt.x, box.x0, vside), VoxelCoord(pt.y, box.y0, vside), VoxelCoord(pt.z, box.z0, vside);
    d.Contains(lx, ly, lz) && Idx(d, lx, ly, lz) == q
  }

  /** One of the first k points falls at flat position q. */
  ghost predicate HitBefore(p: seq<Point>, k: int, box: Box, vside: real, d: Dims, q: int)
    requires vside > 0.0
  {
    exists i :: 0 <= i < k && i < |p| && LandsAt(p[i], box, vside, d, q)
  }

  /** cts2bin. The image takes the dimensions of the box; every voxel ends up
      0 or 1, and 0 exactly where some point falls. Points whose voxel index
      is outside the grid are dropped. `fails` stands for the host allocator
      returning null. */
  method Cts2Bin(p: seq<Point>, box: Box, vside: real, b: BinaryImage, fails: bool) returns (ok: bool)
    requires vside > 0.0 && box.Ok()
    modifies b
    ensures b.Shape() == GridOf(box, vside)
    ensures ok <==> !fails
    ensures ok ==> b.Valid() && fresh(b.data)
    ensures ok ==> forall q :: 0 <= q < b.length ==> b.data[q] == 0 || b.data[q] == 1
    ensures ok ==> forall x, y, z :: b.Shape().Contains(x, y, z) ==>
      (b.data[Idx(b.Shape(), x, y, z)] == 0 <==> Occupied(p, box, vside, b.Shape(), x, y, z))
    ensures ok && |p| == 0 ==> forall q :: 0 <= q < b.length ==> b.data[q] == 1
  {
    b.Mx := AxisSize(box.x0, box.x1, vside);
    b.My := AxisSize(box.y0, box.y1, vside);
    b.Mz := AxisSize(box.z0, box.z1, vside);

    ok := b.Alloc(fails);
    if !ok {
      return;
    }

    var d := b.Shape();
    var i := b.length;
    var cp := 0;
    while i != 0
      modifies b.data
      invariant 0 <= cp <= b.length && i == b.length - cp
      invariant forall q :: 0 <= q < cp ==> b.data[q] == 1
    {
      b.data[cp] := 1;
      i, cp := i - 1, cp + 1;
    }

    i := 0;
    while i < |p|
      modifies b.data
      invariant 0 <= i <= |p|
      invariant forall q :: 0 <= q < b.length ==>
        b.data[q] == if HitBefore(p, i, box, vside, d, q) then 0 else 1
    {
      var lx := VoxelCoord(p[i].x, box.x0, vside);
      var ly := VoxelCoord(p[i].y, box.y0, vside);
      var lz := VoxelCoord(p[i].z, box.z0, vside);
      if lx >= 0 && lx < b.Mx && ly >= 0 && ly < b.My && lz >= 0 && lz < b.Mz {
        b.data[Idx(d, lx, ly, lz)] := 0;
      }
      forall q | 0 <= q < b.length
        ensures HitBefore(p, i + 1, box, vside, d, q) <==>
          HitBefore(p, i, box, vside, d, q) || LandsAt(p[i], box, vside, d, q)
      {
        if HitBefore(p, i + 1, box, vside, d, q) && !LandsAt(p[i], box, vside, d, q) {
          var j :| 0 <= j < i + 1 && j < |p| && LandsAt(p[j], box, vside, d, q);
          assert j < i;
        }
      }
      i := i + 1;
    }

    forall x, y, z | d.Contains(x, y, z)
      ensures HitBefore(p, |p|, box, vside, d, Idx(d, x, y, z)) <==> Occupied(p, box, vside, d, x, y, z)
    {
      var q := Idx(d, x, y, z);
      if HitBefore(p, |p|, box, vside, d, q) {
        var j :| 0 <= j < |p| && LandsAt(p[j], box, vside, d, q);
        IdxInjective(d, VoxelCoord(p[j].x, box.x0, vside), VoxelCoord(p[j].y, box.y0, vside),
                     VoxelCoord(p[j].z, box.z0, vside), x, y, z);
        assert Marks(p[j], box, vside, d, x, y, z);
      }
      if Occupied(p, box, vside, d, x, y, z) {
        var j :| 0 <= j < |p| && Marks(p[j], box, vside, d, x, y, z);
        assert LandsAt(p[j], box, vside, d, q);
      }
    }
  }

  /** The unit cube with voxel side 0.5 gives a 3 x 3 x 3 grid, and the point
      (0.5, 0.5, 0.5) falls in the corner voxel (0, 0, 0), not the centre. */
  lemma UnitCubeHalfSide()
    ensures GridOf(Box(0.0, 1.0, 0.0, 1.0, 0.0, 1.0), 0.5) == Dims(3, 3, 3)
    ensures Marks(Point(0.5, 0.5, 0.5), Box(0.0, 1.0, 0.0, 1.0, 0.0, 1.0), 0.5, Dims(3, 3, 3), 0, 0, 0)
  {
  }
}
