/** The scan-order tallies of the accumulators: a histogram holds its
    starting value plus the counts of the voxels before a cursor, and the
    lemmas that move the cursor one voxel, one row or one plane on. */
module Tallies {
  import opened Grid
  import opened Counting

  /** The counters of one side of an H4table, as values: the histogram,
      its uncensored part and the counter for bins at or beyond n. */
  datatype Counts = Counts(main: seq<int>, pair: seq<int>, upper: int)

  /** The histogram h0 plus, in every entry k, the voxels before the cursor
      that counter At(kind, k) counts: what a histogram that started as h0
      holds once the scan has reached the cursor. */
  ghost function Tally(h0: seq<int>, f: Field, n: int, bins: Bins, kind: Kind, x: int, y: int, z: int): seq<int>
  {
    seq(|h0|, k requires 0 <= k < |h0| => h0[k] + CountScanned(f, n, bins, At(kind, k), x, y, z))
  }

  lemma TalliedStart(h: seq<int>, f: Field, n: int, bins: Bins, kind: Kind)
    requires f.Ok()
    ensures h == Tally(h, f, n, bins, kind, 0, 0, 0)
  {
    forall k | 0 <= k < |h|
      ensures CountScanned(f, n, bins, At(kind, k), 0, 0, 0) == 0
    {
      ScanEnds(f, n, bins, At(kind, k));
    }
  }

  /** Counting voxel (x, y, z) moves the cursor one voxel on. */
  lemma TalliedStep(h: seq<int>, h': seq<int>, h0: seq<int>, f: Field, n: int, bins: Bins, kind: Kind,
                    x: int, y: int, z: int)
    requires f.Ok() && f.d.Contains(x, y, z)
    requires h == Tally(h0, f, n, bins, kind, x, y, z)
    requires |h'| == |h0|
    requires forall k :: 0 <= k < |h0| ==>
      h'[k] == h[k] + (if VoxelHits(f, n, bins, At(kind, k), x, y, z) then 1 else 0)
    ensures h' == Tally(h0, f, n, bins, kind, x + 1, y, z)
  {
    forall k | 0 <= k < |h0|
      ensures h'[k] == h0[k] + CountScanned(f, n, bins, At(kind, k), x + 1, y, z)
    {
      ScanStep(f, n, bins, At(kind, k), x, y, z);
    }
  }

  /** The end of a row is the start of the next. */
  lemma TalliedRowEnd(h0: seq<int>, f: Field, n: int, bins: Bins, kind: Kind, y: int, z: int)
    requires f.Ok() && 0 <= y < f.d.my && 0 <= z < f.d.mz
    ensures Tally(h0, f, n, bins, kind, f.d.mx, y, z) == Tally(h0, f, n, bins, kind, 0, y + 1, z)
  {
    forall k | 0 <= k < |h0|
      ensures CountScanned(f, n, bins, At(kind, k), f.d.mx, y, z) == CountScanned(f, n, bins, At(kind, k), 0, y + 1, z)
    {
      ScanRowEnd(f, n, bins, At(kind, k), y, z);
    }
  }

  /** The end of a plane is the start of the next. */
  lemma TalliedPlaneEnd(h0: seq<int>, f: Field, n: int, bins: Bins, kind: Kind, z: int)
    requires f.Ok() && 0 <= z < f.d.mz
    ensures Tally(h0, f, n, bins, kind, 0, f.d.my, z) == Tally(h0, f, n, bins, kind, 0, 0, z + 1)
  {
    forall k | 0 <= k < |h0|
      ensures CountScanned(f, n, bins, At(kind, k), 0, f.d.my, z) == CountScanned(f, n, bins, At(kind, k), 0, 0, z + 1)
    {
      ScanPlaneEnd(f, n, bins, At(kind, k), z);
    }
  }

  /** After the last voxel every entry has gained its count over the whole
      field. */
  lemma TalliedTotal(h0: seq<int>, f: Field, n: int, bins: Bins, kind: Kind)
    requires f.Ok()
    ensures |Tally(h0, f, n, bins, kind, 0, 0, f.d.mz)| == |h0|
    ensures forall k :: 0 <= k < |h0| ==>
      Tally(h0, f, n, bins, kind, 0, 0, f.d.mz)[k] == h0[k] + CountVoxels(f, n, bins, At(kind, k))
  {
    forall k | 0 <= k < |h0|
      ensures CountScanned(f, n, bins, At(kind, k), 0, 0, f.d.mz) == CountVoxels(f, n, bins, At(kind, k))
    {
      ScanEnds(f, n, bins, At(kind, k));
    }
  }

  /** Both histograms of hist3dminus are tallied up to the cursor. */
  ghost predicate MinusTallied(num: seq<int>, denom: seq<int>, num0: seq<int>, denom0: seq<int>,
                               f: Field, bins: Bins, x: int, y: int, z: int)
  {
    |denom0| == |num0| &&
    num == Tally(num0, f, |num0|, bins, Num, x, y, z) && denom == Tally(denom0, f, |num0|, bins, Denom, x, y, z)
  }

  lemma MinusStep(num: seq<int>, denom: seq<int>, num': seq<int>, denom': seq<int>, num0: seq<int>, denom0: seq<int>,
                  f: Field, bins: Bins, x: int, y: int, z: int)
    requires f.Ok() && f.d.Contains(x, y, z)
    requires MinusTallied(num, denom, num0, denom0, f, bins, x, y, z)
    requires |num'| == |num0| && |denom'| == |num0|
    requires forall j :: 0 <= j < |num0| ==>
      denom'[j] == denom[j] + (if Hits(|num0|, bins, At(Denom, j), f.vals[Idx(f.d, x, y, z)], f.BorderAt(x, y, z)) then 1 else 0) &&
      num'[j] == num[j] + (if Hits(|num0|, bins, At(Num, j), f.vals[Idx(f.d, x, y, z)], f.BorderAt(x, y, z)) then 1 else 0)
    ensures MinusTallied(num', denom', num0, denom0, f, bins, x + 1, y, z)
  {
    TalliedStep(num, num', num0, f, |num0|, bins, Num, x, y, z);
    TalliedStep(denom, denom', denom0, f, |num0|, bins, Denom, x, y, z);
  }

  lemma MinusRowEnd(num: seq<int>, denom: seq<int>, num0: seq<int>, denom0: seq<int>, f: Field, bins: Bins, y: int, z: int)
    requires f.Ok() && 0 <= y < f.d.my && 0 <= z < f.d.mz
    requires MinusTallied(num, denom, num0, denom0, f, bins, f.d.mx, y, z)
    ensures MinusTallied(num, denom, num0, denom0, f, bins, 0, y + 1, z)
  {
    TalliedRowEnd(num0, f, |num0|, bins, Num, y, z);
    TalliedRowEnd(denom0, f, |num0|, bins, Denom, y, z);
  }

  lemma MinusPlaneEnd(num: seq<int>, denom: seq<int>, num0: seq<int>, denom0: seq<int>, f: Field, bins: Bins, z: int)
    requires f.Ok() && 0 <= z < f.d.mz
    requires MinusTallied(num, denom, num0, denom0, f, bins, 0, f.d.my, z)
    ensures MinusTallied(num, denom, num0, denom0, f, bins, 0, 0, z + 1)
  {
    TalliedPlaneEnd(num0, f, |num0|, bins, Num, z);
    TalliedPlaneEnd(denom0, f, |num0|, bins, Denom, z);
  }

  /** After a whole field, num[j] <= denom[j] and a nonincreasing denom hold
      when they held before. */
  lemma MinusTotals(num: seq<int>, denom: seq<int>, num0: seq<int>, denom0: seq<int>, f: Field, bins: Bins)
    requires f.Ok() && MinusTallied(num, denom, num0, denom0, f, bins, 0, 0, f.d.mz)
    ensures forall j :: 0 <= j < |num| ==>
      denom[j] == denom0[j] + CountVoxels(f, |num|, bins, At(Denom, j)) &&
      num[j] == num0[j] + CountVoxels(f, |num|, bins, At(Num, j))
    ensures (forall j :: 0 <= j < |num| ==> num0[j] <= denom0[j]) ==>
      forall j :: 0 <= j < |num| ==> num[j] <= denom[j]
    ensures (forall i, j :: 0 <= i <= j < |num| ==> denom0[j] <= denom0[i]) ==>
      forall i, j :: 0 <= i <= j < |num| ==> denom[j] <= denom[i]
  {
    var n := |num|;
    TalliedTotal(num0, f, n, bins, Num);
    TalliedTotal(denom0, f, n, bins, Denom);
    forall j | 0 <= j < n
      ensures CountVoxels(f, n, bins, At(Num, j)) <= CountVoxels(f, n, bins, At(Denom, j))
    {
      MinusNumWithinDenom(f, n, bins, j);
    }
    forall i, j | 0 <= i <= j < n
      ensures CountVoxels(f, n, bins, At(Denom, j)) <= CountVoxels(f, n, bins, At(Denom, i))
    {
      MinusDenomNonincreasing(f, n, bins, i, j);
    }
  }

  /** s with one added to entry b, when b is an index of s. */
  function Bump(s: seq<int>, b: int): (r: seq<int>)
    ensures |r| == |s|
    ensures forall k :: 0 <= k < |s| ==> r[k] == s[k] + (if k == b then 1 else 0)
  {
    if 0 <= b < |s| then s[b := s[b] + 1] else s
  }

  /** Bumping an index of s adds one to its sum; any other b adds nothing. */
  lemma BumpSum(s: seq<int>, b: int)
    ensures Sum(Bump(s, b)) == Sum(s) + (if 0 <= b < |s| then 1 else 0)
  {
    if 0 <= b < |s| {
      SumIncrement(s, b);
    }
  }

  /** What one side of the censoring table holds once the scan has reached
      the cursor, when it started as c0: each histogram plus its counts, and
      the upper counter plus the voxels whose bin is at or beyond n. */
  ghost function SideTally(c0: Counts, f: Field, bins: Bins, side: Side, x: int, y: int, z: int): Counts
  {
    var n := |c0.main|;
    Counts(Tally(c0.main, f, n, bins, MainKind(side), x, y, z),
           Tally(c0.pair, f, n, bins, PairKind(side), x, y, z),
           c0.upper + CountScanned(f, n, bins, UpperOf(side), x, y, z))
  }

  /** Side c has been tallied from c0 up to the cursor. */
  ghost predicate SideTallied(c: Counts, c0: Counts, f: Field, bins: Bins, side: Side, x: int, y: int, z: int)
  {
    |c0.pair| == |c0.main| && c == SideTally(c0, f, bins, side, x, y, z)
  }

  /** Side c after hist3dCen has counted one voxel with distance value val
      and border distance border: the histogram gains one at the side's
      bin, the uncensored histogram with it for an uncensored voxel, and
      the upper counter instead for a bin at or beyond n. */
  function Added(c: Counts, n: int, bins: Bins, side: Side, val: int, border: int): Counts {
    var b := SideBin(side, bins, val, border);
    Counts(Bump(c.main, b),
           if Uncensored(val, border) then Bump(c.pair, b) else c.pair,
           c.upper + (if b >= n then 1 else 0))
  }

  lemma SideStart(c: Counts, f: Field, bins: Bins, side: Side)
    requires f.Ok() && |c.pair| == |c.main|
    ensures SideTallied(c, c, f, bins, side, 0, 0, 0)
  {
    var n := |c.main|;
    TalliedStart(c.main, f, n, bins, MainKind(side));
    TalliedStart(c.pair, f, n, bins, PairKind(side));
    ScanEnds(f, n, bins, UpperOf(side));
  }

  /** Counting voxel (x, y, z) moves the cursor one voxel on: the update
      raises exactly the counters that count the voxel. */
  lemma SideStep(c: Counts, c': Counts, c0: Counts, f: Field, bins: Bins, side: Side, x: int, y: int, z: int)
    requires f.Ok() && f.d.Contains(x, y, z)
    requires SideTallied(c, c0, f, bins, side, x, y, z)
    requires c' == Added(c, |c0.main|, bins, side, f.vals[Idx(f.d, x, y, z)], f.BorderAt(x, y, z))
    ensures SideTallied(c', c0, f, bins, side, x + 1, y, z)
  {
    var n := |c0.main|;
    SideHits(side, n, bins, f.vals[Idx(f.d, x, y, z)], f.BorderAt(x, y, z));
    TalliedStep(c.main, c'.main, c0.main, f, n, bins, MainKind(side), x, y, z);
    TalliedStep(c.pair, c'.pair, c0.pair, f, n, bins, PairKind(side), x, y, z);
    ScanStep(f, n, bins, UpperOf(side), x, y, z);
  }

  /** The end of a row is the start of the next. */
  lemma SideRowEnd(c0: Counts, f: Field, bins: Bins, side: Side, y: int, z: int)
    requires f.Ok() && 0 <= y < f.d.my && 0 <= z < f.d.mz
    ensures SideTally(c0, f, bins, side, f.d.mx, y, z) == SideTally(c0, f, bins, side, 0, y + 1, z)
  {
    var n := |c0.main|;
    TalliedRowEnd(c0.main, f, n, bins, MainKind(side), y, z);
    TalliedRowEnd(c0.pair, f, n, bins, PairKind(side), y, z);
    ScanRowEnd(f, n, bins, UpperOf(side), y, z);
  }

  /** The end of a plane is the start of the next. */
  lemma SidePlaneEnd(c0: Counts, f: Field, bins: Bins, side: Side, z: int)
    requires f.Ok() && 0 <= z < f.d.mz
    ensures SideTally(c0, f, bins, side, 0, f.d.my, z) == SideTally(c0, f, bins, side, 0, 0, z + 1)
  {
    var n := |c0.main|;
    TalliedPlaneEnd(c0.main, f, n, bins, MainKind(side), z);
    TalliedPlaneEnd(c0.pair, f, n, bins, PairKind(side), z);
    ScanPlaneEnd(f, n, bins, UpperOf(side), z);
  }

  /** What a side tallied from c0 up to the cursor holds in its histogram
      and upper counter together, less the voxels before the cursor whose
      bin on this side is not negative. It stays at what c0 holds: no such
      voxel is lost or counted twice. */
  ghost function Unkept(c0: Counts, f: Field, bins: Bins, side: Side, x: int, y: int, z: int): int {
    var c := SideTally(c0, f, bins, side, x, y, z);
    Sum(c.main) + c.upper - CountScanned(f, |c0.main|, bins, KeptOf(side), x, y, z)
  }

  /** Counting voxel (x, y, z) keeps the account. */
  lemma KeptStep(c0: Counts, f: Field, bins: Bins, side: Side, x: int, y: int, z: int)
    requires f.Ok() && f.d.Contains(x, y, z)
    ensures Unkept(c0, f, bins, side, x + 1, y, z) == Unkept(c0, f, bins, side, x, y, z)
  {
    var n := |c0.main|;
    var c := SideTally(c0, f, bins, side, x, y, z);
    var b := SideBin(side, bins, f.vals[Idx(f.d, x, y, z)], f.BorderAt(x, y, z));
    SideHits(side, n, bins, f.vals[Idx(f.d, x, y, z)], f.BorderAt(x, y, z));
    TalliedStep(c.main, Bump(c.main, b), c0.main, f, n, bins, MainKind(side), x, y, z);
    BumpSum(c.main, b);
    ScanStep(f, n, bins, UpperOf(side), x, y, z);
    ScanStep(f, n, bins, KeptOf(side), x, y, z);
  }

  lemma KeptRowEnd(c0: Counts, f: Field, bins: Bins, side: Side, y: int, z: int)
    requires f.Ok() && 0 < y <= f.d.my && 0 <= z < f.d.mz
    ensures Unkept(c0, f, bins, side, 0, y, z) == Unkept(c0, f, bins, side, f.d.mx, y - 1, z)
  {
    SideRowEnd(c0, f, bins, side, y - 1, z);
    ScanRowEnd(f, |c0.main|, bins, KeptOf(side), y - 1, z);
  }

  lemma KeptPlaneEnd(c0: Counts, f: Field, bins: Bins, side: Side, z: int)
    requires f.Ok() && 0 < z <= f.d.mz
    ensures Unkept(c0, f, bins, side, 0, 0, z) == Unkept(c0, f, bins, side, 0, f.d.my, z - 1)
  {
    SidePlaneEnd(c0, f, bins, side, z - 1);
    ScanPlaneEnd(f, |c0.main|, bins, KeptOf(side), z - 1);
  }

  lemma KeptStart(c0: Counts, f: Field, bins: Bins, side: Side)
    requires f.Ok()
    ensures Unkept(c0, f, bins, side, 0, 0, 0) == Sum(c0.main) + c0.upper
  {
    var n := |c0.main|;
    TalliedStart(c0.main, f, n, bins, MainKind(side));
    ScanEnds(f, n, bins, UpperOf(side));
    ScanEnds(f, n, bins, KeptOf(side));
  }

  lemma {:induction false} KeptRow(c0: Counts, f: Field, bins: Bins, side: Side, x: int, y: int, z: int)
    requires f.Ok() && 0 <= x <= f.d.mx && 0 <= y < f.d.my && 0 <= z < f.d.mz
    ensures Unkept(c0, f, bins, side, x, y, z) == Unkept(c0, f, bins, side, 0, y, z)
    decreases x
  {
    if x > 0 {
      KeptRow(c0, f, bins, side, x - 1, y, z);
      KeptStep(c0, f, bins, side, x - 1, y, z);
    }
  }

  lemma {:induction false} KeptPlane(c0: Counts, f: Field, bins: Bins, side: Side, y: int, z: int)
    requires f.Ok() && 0 <= y <= f.d.my && 0 <= z < f.d.mz
    ensures Unkept(c0, f, bins, side, 0, y, z) == Unkept(c0, f, bins, side, 0, 0, z)
    decreases y
  {
    if y > 0 {
      KeptPlane(c0, f, bins, side, y - 1, z);
      KeptRow(c0, f, bins, side, f.d.mx, y - 1, z);
      KeptRowEnd(c0, f, bins, side, y, z);
    }
  }

  /** The account holds at the start of every plane, and so at the end of
      the scan. */
  lemma {:induction false} KeptGrid(c0: Counts, f: Field, bins: Bins, side: Side, z: int)
    requires f.Ok() && 0 <= z <= f.d.mz
    ensures Unkept(c0, f, bins, side, 0, 0, z) == Unkept(c0, f, bins, side, 0, 0, 0)
    decreases z
  {
    if z > 0 {
      KeptGrid(c0, f, bins, side, z - 1);
      KeptPlane(c0, f, bins, side, f.d.my, z - 1);
      KeptPlaneEnd(c0, f, bins, side, z);
    }
  }

  /** What one side holds after the whole field has been scanned. */
  ghost function SideTotal(c0: Counts, f: Field, bins: Bins, side: Side): Counts {
    SideTally(c0, f, bins, side, 0, 0, f.d.mz)
  }

  /** After the whole field every counter of the side has gained its count
      over the field; the histogram and the upper counter together have
      gained one per voxel whose bin is not negative; and the uncensored
      histogram stays within the histogram when it started within it. */
  lemma SideTotals(c0: Counts, f: Field, bins: Bins, side: Side)
    requires f.Ok() && |c0.pair| == |c0.main|
    ensures |SideTotal(c0, f, bins, side).main| == |c0.main| && |SideTotal(c0, f, bins, side).pair| == |c0.main|
    ensures forall k :: 0 <= k < |c0.main| ==>
      SideTotal(c0, f, bins, side).main[k] == c0.main[k] + CountVoxels(f, |c0.main|, bins, At(MainKind(side), k)) &&
      SideTotal(c0, f, bins, side).pair[k] == c0.pair[k] + CountVoxels(f, |c0.main|, bins, At(PairKind(side), k))
    ensures SideTotal(c0, f, bins, side).upper == c0.upper + CountVoxels(f, |c0.main|, bins, UpperOf(side))
    ensures Sum(SideTotal(c0, f, bins, side).main) + SideTotal(c0, f, bins, side).upper ==
      Sum(c0.main) + c0.upper + CountVoxels(f, |c0.main|, bins, KeptOf(side))
    ensures (forall k :: 0 <= k < |c0.main| ==> c0.pair[k] <= c0.main[k]) ==>
      forall k :: 0 <= k < |c0.main| ==> SideTotal(c0, f, bins, side).pair[k] <= SideTotal(c0, f, bins, side).main[k]
  {
    var n := |c0.main|;
    TalliedTotal(c0.main, f, n, bins, MainKind(side));
    TalliedTotal(c0.pair, f, n, bins, PairKind(side));
    ScanEnds(f, n, bins, UpperOf(side));
    ScanEnds(f, n, bins, KeptOf(side));
    KeptGrid(c0, f, bins, side, f.d.mz);
    KeptStart(c0, f, bins, side);
    forall k | 0 <= k < n
      ensures CountVoxels(f, n, bins, At(PairKind(side), k)) <= CountVoxels(f, n, bins, At(MainKind(side), k))
    {
      if side == ObsSide {
        CenNcoWithinObs(f, n, bins, k);
      } else {
        CenNccWithinCen(f, n, bins, k);
      }
    }
  }

  /** Both sides of the censoring table are tallied up to the cursor. */
  ghost predicate CenTallied(obs: Counts, cen: Counts, obs0: Counts, cen0: Counts, f: Field, bins: Bins,
                             x: int, y: int, z: int)
  {
    SideTallied(obs, obs0, f, bins, ObsSide, x, y, z) && SideTallied(cen, cen0, f, bins, CenSide, x, y, z)
  }

  lemma CenStep(obs: Counts, cen: Counts, obs': Counts, cen': Counts, obs0: Counts, cen0: Counts,
                f: Field, bins: Bins, x: int, y: int, z: int)
    requires f.Ok() && f.d.Contains(x, y, z)
    requires CenTallied(obs, cen, obs0, cen0, f, bins, x, y, z)
    requires obs' == Added(obs, |obs0.main|, bins, ObsSide, f.vals[Idx(f.d, x, y, z)], f.BorderAt(x, y, z))
    requires cen' == Added(cen, |cen0.main|, bins, CenSide, f.vals[Idx(f.d, x, y, z)], f.BorderAt(x, y, z))
    ensures CenTallied(obs', cen', obs0, cen0, f, bins, x + 1, y, z)
  {
    SideStep(obs, obs', obs0, f, bins, ObsSide, x, y, z);
    SideStep(cen, cen', cen0, f, bins, CenSide, x, y, z);
  }

  lemma CenRowEnd(obs: Counts, cen: Counts, obs0: Counts, cen0: Counts, f: Field, bins: Bins, y: int, z: int)
    requires f.Ok() && 0 <= y < f.d.my && 0 <= z < f.d.mz
    requires CenTallied(obs, cen, obs0, cen0, f, bins, f.d.mx, y, z)
    ensures CenTallied(obs, cen, obs0, cen0, f, bins, 0, y + 1, z)
  {
    SideRowEnd(obs0, f, bins, ObsSide, y, z);
    SideRowEnd(cen0, f, bins, CenSide, y, z);
  }

  lemma CenPlaneEnd(obs: Counts, cen: Counts, obs0: Counts, cen0: Counts, f: Field, bins: Bins, z: int)
    requires f.Ok() && 0 <= z < f.d.mz
    requires CenTallied(obs, cen, obs0, cen0, f, bins, 0, f.d.my, z)
    ensures CenTallied(obs, cen, obs0, cen0, f, bins, 0, 0, z + 1)
  {
    SidePlaneEnd(obs0, f, bins, ObsSide, z);
    SidePlaneEnd(cen0, f, bins, CenSide, z);
  }
}
