/** The calling routines phatnaive, phatminus and p3hat4: rasterise the
    pattern (cts2bin), take the chamfer distance transform (distrans3) and
    add the transform into the caller's table with one of the three
    accumulators. Each stage runs only if the previous one allocated its
    image. `binFails` and `intFails` stand for the host allocator returning
    null for the binary and the distance image. */
module Pipeline {
  import opened Grid
  import opened Images
  import opened Raster
  import opened Chamfer
  import opened Counting
  import opened Tallies
  import opened Histograms

  /** bin is the binary image cts2bin makes of pattern p in box: one 0/1
      byte per voxel of the grid, 0 exactly where a point falls. */
  ghost predicate Rasterises(bin: seq<byte>, p: seq<Point>, box: Box, vside: real)
    requires vside > 0.0 && box.Ok()
  {
    var d := GridOf(box, vside);
    |bin| == d.Size() &&
    (forall q :: 0 <= q < |bin| ==> bin[q] == 0 || bin[q] == 1) &&
    (forall x, y, z :: d.Contains(x, y, z) ==> (bin[Idx(d, x, y, z)] == 0 <==> Occupied(p, box, vside, d, x, y, z)))
  }

  /** dist is the chamfer transform distrans3 makes of the raster bin of
      pattern p, by way of the forward field fwd. */
  ghost predicate Transforms(dist: seq<int>, fwd: seq<int>, bin: seq<byte>, p: seq<Point>, box: Box, vside: real)
    requires vside > 0.0 && box.Ok()
  {
    var d := GridOf(box, vside);
    Rasterises(bin, p, box, vside) && |dist| == d.Size() &&
    IsChamferField(dist, bin, d, Infinity(d)) && ChamferPasses(dist, fwd, bin, d, Infinity(d))
  }

  /** Both stages before the accumulator: the binary image and its
      transform, or no transform when an allocation fails. */
  method Transform(p: seq<Point>, box: Box, vside: real, binFails: bool, intFails: bool)
    returns (ok: bool, v: IntImage, ghost fwd: seq<int>, ghost bin: seq<byte>)
    requires vside > 0.0 && box.Ok()
    ensures ok <==> !binFails && !intFails
    ensures ok ==> v.Valid() && fresh(v.data) && v.Shape() == GridOf(box, vside)
    ensures ok ==> Transforms(v.data[..], fwd, bin, p, box, vside)
    ensures ok && |p| == 0 ==> forall q :: 0 <= q < v.length ==> v.data[q] == Infinity(v.Shape())
  {
    var b := new BinaryImage();
    v := new IntImage();
    bin, fwd := [], [];
    ok := Cts2Bin(p, box, vside, b, binFails);
    if ok {
      bin := b.data[..];
      ok, fwd := Distrans3(b, v, intFails);
      if ok {
        assert NoPoints(bin) <== |p| == 0;
      }
    }
  }

  /** phatnaive: when both images are allocated, denom[j] becomes the number
      of voxels and num[j] the number of voxels whose distance bin is at
      most j; otherwise the table is left as it was. */
  method PhatNaive(p: seq<Point>, box: Box, vside: real, bins: Bins, count: Itable, binFails: bool, intFails: bool)
    returns (ok: bool, ghost dist: seq<int>, ghost fwd: seq<int>, ghost bin: seq<byte>)
    requires vside > 0.0 && box.Ok() && count.Valid()
    modifies count.num, count.denom
    ensures ok <==> !binFails && !intFails
    ensures !ok ==> unchanged(count.num) && unchanged(count.denom)
    ensures ok ==> Transforms(dist, fwd, bin, p, box, vside)
    ensures ok ==> forall j :: 0 <= j < count.n ==>
      count.denom[j] == GridOf(box, vside).Size() && count.num[j] == NaiveCount(dist, bins, j)
    ensures ok ==> forall i, j :: 0 <= i <= j < count.n ==> count.num[i] <= count.num[j]
  {
    var v;
    ok, v, fwd, bin := Transform(p, box, vside, binFails, intFails);
    dist := [];
    if ok {
      dist := v.data[..];
      Hist3d(v, bins, count);
    }
  }

  /** phatminus: when both images are allocated, num[j] and denom[j] gain
      the border-corrected counts of the transform; otherwise the table is
      left as it was. */
  method PhatMinus(p: seq<Point>, box: Box, vside: real, rule: BorderRule, bins: Bins, count: Itable, binFails: bool, intFails: bool)
    returns (ok: bool, ghost dist: seq<int>, ghost fwd: seq<int>, ghost bin: seq<byte>)
    requires vside > 0.0 && box.Ok() && count.Valid()
    modifies count.num, count.denom
    ensures ok <==> !binFails && !intFails
    ensures !ok ==> unchanged(count.num) && unchanged(count.denom)
    ensures ok ==> Transforms(dist, fwd, bin, p, box, vside)
    ensures ok ==> forall j :: 0 <= j < count.n ==>
      count.denom[j] == old(count.denom[j]) + CountVoxels(Field(dist, GridOf(box, vside), rule), count.n, bins, At(Denom, j)) &&
      count.num[j] == old(count.num[j]) + CountVoxels(Field(dist, GridOf(box, vside), rule), count.n, bins, At(Num, j))
    ensures (forall j :: 0 <= j < count.n ==> old(count.num[j]) <= old(count.denom[j])) ==>
      forall j :: 0 <= j < count.n ==> count.num[j] <= count.denom[j]
    ensures (forall i, j :: 0 <= i <= j < count.n ==> old(count.denom[j]) <= old(count.denom[i])) ==>
      forall i, j :: 0 <= i <= j < count.n ==> count.denom[j] <= count.denom[i]
  {
    var v;
    ok, v, fwd, bin := Transform(p, box, vside, binFails, intFails);
    dist := [];
    if ok {
      dist := v.data[..];
      Hist3dMinus(v, rule, bins, count);
    }
  }

  /** p3hat4: when both images are allocated, the obs and cen sides of the
      table gain the censored counts of the transform; otherwise the table
      is left as it was. */
  method P3hat4(p: seq<Point>, box: Box, vside: real, rule: BorderRule, bins: Bins, count: H4table, binFails: bool, intFails: bool)
    returns (ok: bool, ghost dist: seq<int>, ghost fwd: seq<int>, ghost bin: seq<byte>)
    requires vside > 0.0 && box.Ok() && count.Valid()
    modifies count`upperobs, count`uppercen, count.obs, count.cen, count.nco, count.ncc
    ensures ok <==> !binFails && !intFails
    ensures !ok ==> count.ObsCounts() == old(count.ObsCounts()) && count.CenCounts() == old(count.CenCounts())
    ensures ok ==> Transforms(dist, fwd, bin, p, box, vside)
    ensures ok ==> count.ObsCounts() == SideTotal(old(count.ObsCounts()), Field(dist, GridOf(box, vside), rule), bins, ObsSide)
    ensures ok ==> count.CenCounts() == SideTotal(old(count.CenCounts()), Field(dist, GridOf(box, vside), rule), bins, CenSide)
  {
    var v;
    ok, v, fwd, bin := Transform(p, box, vside, binFails, intFails);
    dist := [];
    if ok {
      dist := v.data[..];
      Hist3dCen(v, rule, vside, bins, count);
    }
  }

  /** With no points the transform is Infinity everywhere, so phatnaive's
      num[j] is either every voxel or none. */
  lemma EmptyPatternNaive(dist: seq<int>, fwd: seq<int>, bin: seq<byte>, box: Box, vside: real, bins: Bins, j: int)
    requires vside > 0.0 && box.Ok()
    requires Transforms(dist, fwd, bin, [], box, vside)
    ensures NaiveCount(dist, bins, j) ==
      if ValueBin(bins, Infinity(GridOf(box, vside))) <= j then GridOf(box, vside).Size() else 0
  {
    var d := GridOf(box, vside);
    forall q | 0 <= q < |bin|
      ensures bin[q] != 0
    {
      var x, y, z := Coords(d, q);
      assert !Occupied([], box, vside, d, x, y, z);
    }
    NaiveCountConstant(dist, bins, Infinity(d), j);
  }
}
