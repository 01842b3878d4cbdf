/** What the histogram accumulators count: the border distance of a voxel,
    the bin indices derived from it and from the voxel's distance value, and
    the number of voxels of a distance field that fall into each counter. */
module Counting {
  import opened Grid

  /** The bin indices of a threshold table with n thresholds t0 .. t1, as the
      accumulators compute them in floating point:
      ceilVal(val) stands for (int) ceil((val * vside / 41 - t0) / width), the
      bin of a distance value, and floorBorder(border) for
      (int) floor((vside * border - t0) / width), the bin of a border
      distance given in voxels. */
  datatype Bins = Bins(ceilVal: int -> int, floorBorder: int -> int)

  /** How the accumulators measure the distance from a voxel to the far
      x-face: against My, as hist3dminus and hist3dCen are written, or
      against Mx, as intended. */
  datatype BorderRule = AsWritten | Intended

  /** A distance field: one value per voxel, in flat order, together with
      the rule its voxels' border distances are taken by. */
  datatype Field = Field(vals: seq<int>, d: Dims, rule: BorderRule) {
    predicate Ok() {
      d.Ok() && |vals| == d.Size()
    }

    /** The border distance of voxel (x, y, z) under the field's rule; the
        two rules agree on grids with as many voxels along x as along y. */
    function BorderAt(x: int, y: int, z: int): (r: int)
      ensures rule == Intended || d.mx == d.my ==> r == Border(d, x, y, z)
    {
      if rule == AsWritten then BorderAsWritten(d, x, y, z) else Border(d, x, y, z)
    }
  }

  /** Distance in whole voxels from (x, y, z) to the nearest face of the grid:
      the least, over the six faces, of the distance to that face. Inside the
      grid it is at least 1. */
  function Border(d: Dims, x: int, y: int, z: int): (r: int)
    ensures d.Contains(x, y, z) ==> r >= 1
    ensures r <= x + 1 && r <= d.mx - x && r <= y + 1 && r <= d.my - y && r <= z + 1 && r <= d.mz - z
    ensures r == x + 1 || r == d.mx - x || r == y + 1 || r == d.my - y || r == z + 1 || r == d.mz - z
  {
    Min(Min(x + 1, d.mx - x), Min(Min(y + 1, d.my - y), Min(z + 1, d.mz - z)))
  }

  /** The border distance as hist3dminus and hist3dCen compute it: the x
      term measures the distance to the far x-face against My instead of Mx. */
  function BorderAsWritten(d: Dims, x: int, y: int, z: int): int {
    Min(Min(x + 1, d.my - x), Min(Min(y + 1, d.my - y), Min(z + 1, d.mz - z)))
  }

  /** The two agree whenever the grid has as many voxels along x as along y. */
  lemma BorderAsWrittenSquare(d: Dims, x: int, y: int, z: int)
    requires d.mx == d.my
    ensures BorderAsWritten(d, x, y, z) == Border(d, x, y, z)
  {
  }

  /** On a 2 x 5 x 5 grid the voxel (1, 2, 2) touches the far x-face, yet the
      computation as written puts it two voxels from the border. */
  lemma BorderAsWrittenTooFar()
    ensures Border(Dims(2, 5, 5), 1, 2, 2) == 1 && BorderAsWritten(Dims(2, 5, 5), 1, 2, 2) == 2
  {
    assert Min(2, 1) == 1 && Min(2, 4) == 2 && Min(3, 3) == 3 && Min(2, 3) == 2 && Min(1, 3) == 1;
  }

  /** On a 3 x 1 x 1 grid the voxel (2, 0, 0) gets a negative border as
      written. */
  lemma BorderAsWrittenNegative()
    ensures Border(Dims(3, 1, 1), 2, 0, 0) == 1 && BorderAsWritten(Dims(3, 1, 1), 2, 0, 0) == -1
  {
    assert Min(3, 1) == 1 && Min(3, -1) == -1 && Min(1, 1) == 1 && Min(-1, 1) == -1;
  }

  /** The nearest point lies no farther than the border: val / 41 voxel
      sides against border voxel sides. */
  predicate Uncensored(val: int, border: int) {
    val <= STEP1 * border
  }

  /** kbord of hist3dminus: the border bin, clipped to the last threshold;
      the greatest j at most both. */
  function MinusBorderBin(n: int, bins: Bins, border: int): (r: int)
    ensures r <= n - 1 && r <= bins.floorBorder(border)
    ensures r == n - 1 || r == bins.floorBorder(border)
  {
    Min(bins.floorBorder(border), n - 1)
  }

  /** kval of hist3dminus and hist3d: the distance bin, raised to 0; the
      least j at least both. */
  function ValueBin(bins: Bins, val: int): (r: int)
    ensures r >= 0 && r >= bins.ceilVal(val)
    ensures r == 0 || r == bins.ceilVal(val)
  {
    Max(bins.ceilVal(val), 0)
  }

  /** The obs bin of hist3dCen: the distance bin for an uncensored voxel, the
      smaller of the distance and border bins for a censored one. It never
      exceeds the distance bin, and a censored voxel never lands beyond its
      border bin. */
  function CenObsBin(bins: Bins, val: int, border: int): (r: int)
    ensures r <= bins.ceilVal(val)
    ensures Uncensored(val, border) ==> r == bins.ceilVal(val)
    ensures !Uncensored(val, border) ==>
      r <= bins.floorBorder(border) && (r == bins.ceilVal(val) || r == bins.floorBorder(border))
  {
    if Uncensored(val, border) then bins.ceilVal(val)
    else Min(bins.ceilVal(val), bins.floorBorder(border))
  }

  /** The histograms of the threshold tables: denom and num of an Itable,
      obs, cen, nco and ncc of an H4table. */
  datatype Kind = Denom | Num | Obs | Cen | Nco | Ncc

  /** One counter of a threshold table: entry k of a histogram, or one of
      the two counters beyond the last threshold. ObsKept and CenKept stand
      for the obs side (obs and upperobs together) and the cen side. */
  datatype Query = At(kind: Kind, k: int) | UpperObs | UpperCen | ObsKept | CenKept

  /** Whether a voxel with distance value val and border distance border adds
      one to counter q of a table with n thresholds. Every histogram entry it
      raises lies inside the table. */
  predicate Hits(n: int, bins: Bins, q: Query, val: int, border: int)
    ensures Hits(n, bins, q, val, border) && q.At? ==> 0 <= q.k < n
  {
    match q
    case At(Denom, j) => 0 <= j <= MinusBorderBin(n, bins, border)
    case At(Num, j) => ValueBin(bins, val) <= j <= MinusBorderBin(n, bins, border)
    case At(Obs, k) => 0 <= k < n && CenObsBin(bins, val, border) == k
    case At(Nco, k) => 0 <= k < n && Uncensored(val, border) && bins.ceilVal(val) == k
    case At(Cen, k) => 0 <= k < n && bins.floorBorder(border) == k
    case At(Ncc, k) => 0 <= k < n && Uncensored(val, border) && bins.floorBorder(border) == k
    case UpperObs => CenObsBin(bins, val, border) >= n
    case UpperCen => bins.floorBorder(border) >= n
    case ObsKept => CenObsBin(bins, val, border) >= 0
    case CenKept => bins.floorBorder(border) >= 0
  }

  /** The two sides of the censoring table: obs with nco and upperobs, cen
      with ncc and uppercen. */
  datatype Side = ObsSide | CenSide

  /** The histogram of a side, and the histogram of its uncensored part. */
  function MainKind(side: Side): Kind {
    if side == ObsSide then Obs else Cen
  }

  function PairKind(side: Side): Kind {
    if side == ObsSide then Nco else Ncc
  }

  /** The counter of a side for bins at or beyond n. */
  function UpperOf(side: Side): Query {
    if side == ObsSide then UpperObs else UpperCen
  }

  /** The whole side: its histogram together with its upper counter. */
  function KeptOf(side: Side): Query {
    if side == ObsSide then ObsKept else CenKept
  }

  /** The bin a voxel falls in on a side of hist3dCen. */
  function SideBin(side: Side, bins: Bins, val: int, border: int): int {
    if side == ObsSide then CenObsBin(bins, val, border) else bins.floorBorder(border)
  }

  /** Per voxel and per side, hist3dCen raises exactly one of the entries of
      the histogram and its upper counter, the one of the side's bin, and
      none when that bin is negative; the uncensored histogram rises with
      the histogram, at the same entry, and only for an uncensored voxel. */
  lemma SideHits(side: Side, n: int, bins: Bins, val: int, border: int)
    requires n >= 0
    ensures forall k :: Hits(n, bins, At(MainKind(side), k), val, border) <==>
      0 <= k < n && k == SideBin(side, bins, val, border)
    ensures forall k :: Hits(n, bins, At(PairKind(side), k), val, border) <==>
      0 <= k < n && k == SideBin(side, bins, val, border) && Uncensored(val, border)
    ensures Hits(n, bins, UpperOf(side), val, border) <==> SideBin(side, bins, val, border) >= n
    ensures Hits(n, bins, KeptOf(side), val, border) <==> SideBin(side, bins, val, border) >= 0
  {
  }

  /** Whether voxel (x, y, z) of field f adds one to counter q. */
  predicate VoxelHits(f: Field, n: int, bins: Bins, q: Query, x: int, y: int, z: int)
    requires f.Ok() && f.d.Contains(x, y, z)
  {
    Hits(n, bins, q, f.vals[Idx(f.d, x, y, z)], f.BorderAt(x, y, z))
  }

  /** Voxels (0..xe-1, y, z) that counter q counts. */
  function CountRow(f: Field, n: int, bins: Bins, q: Query, y: int, z: int, xe: int): nat
    requires f.Ok() && 0 <= y < f.d.my && 0 <= z < f.d.mz && 0 <= xe <= f.d.mx
    decreases xe
  {
    if xe == 0 then 0
    else CountRow(f, n, bins, q, y, z, xe - 1) + (if VoxelHits(f, n, bins, q, xe - 1, y, z) then 1 else 0)
  }

  /** Voxels of rows 0..ye-1 of plane z that counter q counts. */
  function CountPlane(f: Field, n: int, bins: Bins, q: Query, z: int, ye: int): nat
    requires f.Ok() && 0 <= z < f.d.mz && 0 <= ye <= f.d.my
    decreases ye
  {
    if ye == 0 then 0
    else CountPlane(f, n, bins, q, z, ye - 1) + CountRow(f, n, bins, q, ye - 1, z, f.d.mx)
  }

  /** Voxels of planes 0..ze-1 that counter q counts. */
  function CountGrid(f: Field, n: int, bins: Bins, q: Query, ze: int): nat
    requires f.Ok() && 0 <= ze <= f.d.mz
    decreases ze
  {
    if ze == 0 then 0
    else CountGrid(f, n, bins, q, ze - 1) + CountPlane(f, n, bins, q, ze - 1, f.d.my)
  }

  /** Voxels of the whole field that counter q counts. */
  function CountVoxels(f: Field, n: int, bins: Bins, q: Query): nat
    requires f.Ok()
  {
    CountGrid(f, n, bins, q, f.d.mz)
  }

  /** On a grid with as many voxels along x as along y, the counts taken
      with the border rule as written are the intended ones. */
  lemma {:induction false} RowRulesAgree(f: Field, n: int, bins: Bins, q: Query, y: int, z: int, xe: int)
    requires f.Ok() && f.d.mx == f.d.my && 0 <= y < f.d.my && 0 <= z < f.d.mz && 0 <= xe <= f.d.mx
    ensures CountRow(f.(rule := AsWritten), n, bins, q, y, z, xe) == CountRow(f.(rule := Intended), n, bins, q, y, z, xe)
    decreases xe
  {
    if xe > 0 {
      RowRulesAgree(f, n, bins, q, y, z, xe - 1);
    }
  }

  lemma {:induction false} PlaneRulesAgree(f: Field, n: int, bins: Bins, q: Query, z: int, ye: int)
    requires f.Ok() && f.d.mx == f.d.my && 0 <= z < f.d.mz && 0 <= ye <= f.d.my
    ensures CountPlane(f.(rule := AsWritten), n, bins, q, z, ye) == CountPlane(f.(rule := Intended), n, bins, q, z, ye)
    decreases ye
  {
    if ye > 0 {
      PlaneRulesAgree(f, n, bins, q, z, ye - 1);
      RowRulesAgree(f, n, bins, q, ye - 1, z, f.d.mx);
    }
  }

  lemma {:induction false} GridRulesAgree(f: Field, n: int, bins: Bins, q: Query, ze: int)
    requires f.Ok() && f.d.mx == f.d.my && 0 <= ze <= f.d.mz
    ensures CountGrid(f.(rule := AsWritten), n, bins, q, ze) == CountGrid(f.(rule := Intended), n, bins, q, ze)
    decreases ze
  {
    if ze > 0 {
      GridRulesAgree(f, n, bins, q, ze - 1);
      PlaneRulesAgree(f, n, bins, q, ze - 1, f.d.my);
    }
  }

  /** Every counter of the tables counts the same voxels under either rule
      when Mx == My. */
  lemma SquareGridRulesAgree(f: Field, n: int, bins: Bins, q: Query)
    requires f.Ok() && f.d.mx == f.d.my
    ensures CountVoxels(f.(rule := AsWritten), n, bins, q) == CountVoxels(f.(rule := Intended), n, bins, q)
  {
    GridRulesAgree(f, n, bins, q, f.d.mz);
  }

  /** The scan cursor (x, y, z) of the z/y/x loops, with z == Mz at the end. */
  predicate Cursor(d: Dims, x: int, y: int, z: int) {
    0 <= z <= d.mz && 0 <= y <= d.my && 0 <= x <= d.mx
  }

  /** Voxels strictly before cursor (x, y, z) in scan order that counter q
      counts; none for a cursor off the grid. */
  function CountScanned(f: Field, n: int, bins: Bins, q: Query, x: int, y: int, z: int): nat
  {
    if !(f.Ok() && Cursor(f.d, x, y, z)) then 0
    else
      CountGrid(f, n, bins, q, z) +
      (if z < f.d.mz then CountPlane(f, n, bins, q, z, y) + (if y < f.d.my then CountRow(f, n, bins, q, y, z, x) else 0)
       else 0)
  }

  /** Nothing is scanned before the first voxel, everything after the last. */
  lemma ScanEnds(f: Field, n: int, bins: Bins, q: Query)
    requires f.Ok()
    ensures CountScanned(f, n, bins, q, 0, 0, 0) == 0
    ensures CountScanned(f, n, bins, q, 0, 0, f.d.mz) == CountVoxels(f, n, bins, q)
  {
  }

  /** Moving the cursor past voxel (x, y, z) adds that voxel's contribution. */
  lemma ScanStep(f: Field, n: int, bins: Bins, q: Query, x: int, y: int, z: int)
    requires f.Ok() && f.d.Contains(x, y, z)
    ensures CountScanned(f, n, bins, q, x + 1, y, z) ==
      CountScanned(f, n, bins, q, x, y, z) + (if VoxelHits(f, n, bins, q, x, y, z) then 1 else 0)
  {
  }

  /** The end of a row is the start of the next. */
  lemma ScanRowEnd(f: Field, n: int, bins: Bins, q: Query, y: int, z: int)
    requires f.Ok() && 0 <= y < f.d.my && 0 <= z < f.d.mz
    ensures CountScanned(f, n, bins, q, f.d.mx, y, z) == CountScanned(f, n, bins, q, 0, y + 1, z)
  {
  }

  /** The end of a plane is the start of the next. */
  lemma ScanPlaneEnd(f: Field, n: int, bins: Bins, q: Query, z: int)
    requires f.Ok() && 0 <= z < f.d.mz
    ensures CountScanned(f, n, bins, q, 0, f.d.my, z) == CountScanned(f, n, bins, q, 0, 0, z + 1)
  {
  }

  /** A counter that every voxel meeting q1 also meets counts at least as
      many voxels. */
  lemma {:induction false} CountRowMono(f: Field, n: int, bins: Bins, q1: Query, q2: Query, y: int, z: int, xe: int)
    requires f.Ok() && 0 <= y < f.d.my && 0 <= z < f.d.mz && 0 <= xe <= f.d.mx
    requires forall val, border :: Hits(n, bins, q1, val, border) ==> Hits(n, bins, q2, val, border)
    ensures CountRow(f, n, bins, q1, y, z, xe) <= CountRow(f, n, bins, q2, y, z, xe)
    decreases xe
  {
    if xe > 0 {
      CountRowMono(f, n, bins, q1, q2, y, z, xe - 1);
    }
  }

  lemma {:induction false} CountPlaneMono(f: Field, n: int, bins: Bins, q1: Query, q2: Query, z: int, ye: int)
    requires f.Ok() && 0 <= z < f.d.mz && 0 <= ye <= f.d.my
    requires forall val, border :: Hits(n, bins, q1, val, border) ==> Hits(n, bins, q2, val, border)
    ensures CountPlane(f, n, bins, q1, z, ye) <= CountPlane(f, n, bins, q2, z, ye)
    decreases ye
  {
    if ye > 0 {
      CountPlaneMono(f, n, bins, q1, q2, z, ye - 1);
      CountRowMono(f, n, bins, q1, q2, ye - 1, z, f.d.mx);
    }
  }

  lemma {:induction false} CountGridMono(f: Field, n: int, bins: Bins, q1: Query, q2: Query, ze: int)
    requires f.Ok() && 0 <= ze <= f.d.mz
    requires forall val, border :: Hits(n, bins, q1, val, border) ==> Hits(n, bins, q2, val, border)
    ensures CountGrid(f, n, bins, q1, ze) <= CountGrid(f, n, bins, q2, ze)
    decreases ze
  {
    if ze > 0 {
      CountGridMono(f, n, bins, q1, q2, ze - 1);
      CountPlaneMono(f, n, bins, q1, q2, ze - 1, f.d.my);
    }
  }

  /** A counter that every voxel meets counts all Mx * My * Mz voxels. */
  lemma {:induction false} CountRowAll(f: Field, n: int, bins: Bins, q: Query, y: int, z: int, xe: int)
    requires f.Ok() && 0 <= y < f.d.my && 0 <= z < f.d.mz && 0 <= xe <= f.d.mx
    requires forall val, border :: Hits(n, bins, q, val, border)
    ensures CountRow(f, n, bins, q, y, z, xe) == xe
    decreases xe
  {
    if xe > 0 {
      CountRowAll(f, n, bins, q, y, z, xe - 1);
    }
  }

  lemma {:induction false} CountPlaneAll(f: Field, n: int, bins: Bins, q: Query, z: int, ye: int)
    requires f.Ok() && 0 <= z < f.d.mz && 0 <= ye <= f.d.my
    requires forall val, border :: Hits(n, bins, q, val, border)
    ensures CountPlane(f, n, bins, q, z, ye) == ye * f.d.mx
    decreases ye
  {
    if ye > 0 {
      CountPlaneAll(f, n, bins, q, z, ye - 1);
      CountRowAll(f, n, bins, q, ye - 1, z, f.d.mx);
      MulSucc(ye, f.d.mx);
    }
  }

  lemma {:induction false} CountGridAll(f: Field, n: int, bins: Bins, q: Query, ze: int)
    requires f.Ok() && 0 <= ze <= f.d.mz
    requires forall val, border :: Hits(n, bins, q, val, border)
    ensures CountGrid(f, n, bins, q, ze) == ze * (f.d.my * f.d.mx)
    decreases ze
  {
    if ze > 0 {
      CountGridAll(f, n, bins, q, ze - 1);
      CountPlaneAll(f, n, bins, q, ze - 1, f.d.my);
      MulSucc(ze, f.d.my * f.d.mx);
    }
  }

  lemma CountVoxelsAll(f: Field, n: int, bins: Bins, q: Query)
    requires f.Ok()
    requires forall val, border :: Hits(n, bins, q, val, border)
    ensures CountVoxels(f, n, bins, q) == f.d.Size()
  {
    CountGridAll(f, n, bins, q, f.d.mz);
    var p := f.d.mx * f.d.my;
    assert f.d.my * f.d.mx == p;
    assert f.d.mz * p == p * f.d.mz;
  }

  /** Minus sampling: every voxel counted in num[j] is counted in denom[j]. */
  lemma MinusNumWithinDenom(f: Field, n: int, bins: Bins, j: int)
    requires f.Ok()
    ensures CountVoxels(f, n, bins, At(Num, j)) <= CountVoxels(f, n, bins, At(Denom, j))
  {
    CountGridMono(f, n, bins, At(Num, j), At(Denom, j), f.d.mz);
  }

  /** Minus sampling: a voxel far enough from the border for threshold j is
      far enough for every threshold i below it. */
  lemma MinusDenomNonincreasing(f: Field, n: int, bins: Bins, i: int, j: int)
    requires f.Ok() && 0 <= i <= j
    ensures CountVoxels(f, n, bins, At(Denom, j)) <= CountVoxels(f, n, bins, At(Denom, i))
  {
    CountGridMono(f, n, bins, At(Denom, j), At(Denom, i), f.d.mz);
  }

  /** Censoring: every uncensored observation in bin k is an observation in
      bin k. */
  lemma CenNcoWithinObs(f: Field, n: int, bins: Bins, k: int)
    requires f.Ok()
    ensures CountVoxels(f, n, bins, At(Nco, k)) <= CountVoxels(f, n, bins, At(Obs, k))
  {
    CountGridMono(f, n, bins, At(Nco, k), At(Obs, k), f.d.mz);
  }

  /** Censoring: every uncensored border event in bin k is a border event in
      bin k. */
  lemma CenNccWithinCen(f: Field, n: int, bins: Bins, k: int)
    requires f.Ok()
    ensures CountVoxels(f, n, bins, At(Ncc, k)) <= CountVoxels(f, n, bins, At(Cen, k))
  {
    CountGridMono(f, n, bins, At(Ncc, k), At(Cen, k), f.d.mz);
  }

  /** When no distance bin and no border bin is negative, every voxel lands
      in obs or upperobs, and in cen or uppercen. */
  lemma CenKeepsEveryVoxel(f: Field, n: int, bins: Bins)
    requires f.Ok()
    requires forall val :: bins.ceilVal(val) >= 0
    requires forall border :: bins.floorBorder(border) >= 0
    ensures CountVoxels(f, n, bins, ObsKept) == f.d.Size()
    ensures CountVoxels(f, n, bins, CenKept) == f.d.Size()
  {
    CountVoxelsAll(f, n, bins, ObsKept);
    CountVoxelsAll(f, n, bins, CenKept);
  }

  /** Sum of a sequence of counters. */
  function Sum(s: seq<int>): int {
    if s == [] then 0 else Sum(s[..|s| - 1]) + s[|s| - 1]
  }

  /** Adding one to a counter adds one to the sum. */
  lemma {:induction false} SumIncrement(s: seq<int>, k: int)
    requires 0 <= k < |s|
    ensures Sum(s[k := s[k] + 1]) == Sum(s) + 1
    decreases |s|
  {
    var t := s[k := s[k] + 1];
    if k < |s| - 1 {
      assert t[..|t| - 1] == s[..|s| - 1][k := s[k] + 1];
      SumIncrement(s[..|s| - 1], k);
    } else {
      assert t[..|t| - 1] == s[..|s| - 1];
    }
  }

  /** Width of the threshold table: (t1 - t0) / (n - 1). */
  function Width(t0: real, t1: real, n: int): (w: real)
    requires n >= 2 && t0 < t1
    ensures w > 0.0
  {
    (t1 - t0) / (n - 1) as real
  }

  /** Threshold r_j = t0 + j * width. */
  function Threshold(t0: real, t1: real, n: int, j: int): real
    requires n >= 2 && t0 < t1
  {
    t0 + j as real * Width(t0, t1, n)
  }

  /** Physical distance of a distance value: val * vside / 41. */
  function Distance(vside: real, val: int): real {
    val as real * (vside / STEP1 as real)
  }

  /** Physical length of a border distance: vside * border. */
  function BorderLength(vside: real, border: int): real {
    vside * border as real
  }

  /** Exact threshold bins: the bins of Distance and BorderLength against the
      thresholds r_j, without floating-point rounding. */
  function ThresholdBins(vside: real, t0: real, t1: real, n: int): Bins
    requires n >= 2 && t0 < t1
  {
    Bins(val => Ceil((Distance(vside, val) - t0) / Width(t0, t1, n)),
         border => Floor((BorderLength(vside, border) - t0) / Width(t0, t1, n)))
  }

  /** The bin ceil((a - t0) / w) is at most j exactly when a is at most the
      j-th threshold t0 + j * w. */
  lemma CeilAtMost(a: real, t0: real, w: real, j: int)
    requires w > 0.0
    ensures Ceil((a - t0) / w) <= j <==> a <= t0 + j as real * w
  {
    var r := (a - t0) / w;
    assert a - t0 == r * w;
    if r <= j as real {
      assert r * w <= j as real * w;
    } else {
      assert r * w > j as real * w;
    }
  }

  /** The bin floor((b - t0) / w) is at least j exactly when b is at least the
      j-th threshold t0 + j * w. */
  lemma FloorAtLeast(b: real, t0: real, w: real, j: int)
    requires w > 0.0
    ensures Floor((b - t0) / w) >= j <==> b >= t0 + j as real * w
  {
    var r := (b - t0) / w;
    assert b - t0 == r * w;
    if r >= j as real {
      assert r * w >= j as real * w;
    } else {
      assert r * w < j as real * w;
    }
  }

  /** With exact threshold bins, denom[j] of minus sampling counts the voxels
      at least r_j from the border, and num[j] those of them whose nearest
      point lies within r_j. */
  lemma MinusCountersMeaning(vside: real, t0: real, t1: real, n: int, j: int, val: int, border: int)
    requires vside > 0.0 && n >= 2 && t0 < t1
    ensures Hits(n, ThresholdBins(vside, t0, t1, n), At(Denom, j), val, border) <==>
      0 <= j < n && BorderLength(vside, border) >= Threshold(t0, t1, n, j)
    ensures Hits(n, ThresholdBins(vside, t0, t1, n), At(Num, j), val, border) <==>
      0 <= j < n && BorderLength(vside, border) >= Threshold(t0, t1, n, j) &&
      Distance(vside, val) <= Threshold(t0, t1, n, j)
  {
    var width := Width(t0, t1, n);
    var bins := ThresholdBins(vside, t0, t1, n);
    assert bins.ceilVal(val) == Ceil((Distance(vside, val) - t0) / width);
    assert bins.floorBorder(border) == Floor((BorderLength(vside, border) - t0) / width);
    CeilAtMost(Distance(vside, val), t0, width, j);
    FloorAtLeast(BorderLength(vside, border), t0, width, j);
  }

  /** With exact threshold bins, hist3d counts a value towards num[j] exactly
      when its distance is within r_j. */
  lemma NaiveCounterMeaning(vside: real, t0: real, t1: real, n: int, j: int, val: int)
    requires vside > 0.0 && n >= 2 && t0 < t1
    ensures ValueBin(ThresholdBins(vside, t0, t1, n), val) <= j <==>
      0 <= j && Distance(vside, val) <= Threshold(t0, t1, n, j)
  {
    CeilAtMost(Distance(vside, val), t0, Width(t0, t1, n), j);
  }

  /** The uncensored test of hist3dCen, comparing the physical distance to
      the nearest point with the physical border distance, is the integer
      comparison val <= 41 * border. */
  lemma UncensoredInReals(vside: real, val: int, border: int)
    requires vside > 0.0
    ensures Distance(vside, val) <= BorderLength(vside, border) <==> Uncensored(val, border)
  {
    var s := vside / STEP1 as real;
    assert vside * border as real == s * (STEP1 * border) as real;
    if val <= STEP1 * border {
      assert s * val as real <= s * (STEP1 * border) as real;
    } else {
      assert s * val as real > s * (STEP1 * border) as real;
    }
  }

  /** Values of vals whose bin is at most j: what hist3d adds to num[j]. */
  function NaiveCount(vals: seq<int>, bins: Bins, j: int): (c: nat)
    ensures c <= |vals|
  {
    if vals == [] then 0
    else NaiveCount(vals[..|vals| - 1], bins, j) + (if ValueBin(bins, vals[|vals| - 1]) <= j then 1 else 0)
  }

  /** A larger threshold counts at least as many values. */
  lemma {:induction false} NaiveCountMono(vals: seq<int>, bins: Bins, j1: int, j2: int)
    requires j1 <= j2
    ensures NaiveCount(vals, bins, j1) <= NaiveCount(vals, bins, j2)
    decreases |vals|
  {
    if vals != [] {
      NaiveCountMono(vals[..|vals| - 1], bins, j1, j2);
    }
  }

  /** A threshold at or above every value's bin counts every value. */
  lemma {:induction false} NaiveCountAll(vals: seq<int>, bins: Bins, j: int)
    requires forall i :: 0 <= i < |vals| ==> ValueBin(bins, vals[i]) <= j
    ensures NaiveCount(vals, bins, j) == |vals|
    decreases |vals|
  {
    if vals != [] {
      NaiveCountAll(vals[..|vals| - 1], bins, j);
    }
  }

  /** No value has a negative bin, so a negative threshold index counts
      nothing. */
  lemma {:induction false} NaiveCountNone(vals: seq<int>, bins: Bins, j: int)
    requires j < 0
    ensures NaiveCount(vals, bins, j) == 0
    decreases |vals|
  {
    if vals != [] {
      NaiveCountNone(vals[..|vals| - 1], bins, j);
    }
  }

  /** When every value has the same value v, num[j] of hist3d gets all of
      them or none, as v's bin is at most j or not. */
  lemma {:induction false} NaiveCountConstant(vals: seq<int>, bins: Bins, v: int, j: int)
    requires forall i :: 0 <= i < |vals| ==> vals[i] == v
    ensures NaiveCount(vals, bins, j) == if ValueBin(bins, v) <= j then |vals| else 0
    decreases |vals|
  {
    if vals != [] {
      NaiveCountConstant(vals[..|vals| - 1], bins, v, j);
    }
  }
}
