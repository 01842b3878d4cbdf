/** The histogram accumulators hist3d, hist3dminus and hist3dCen: in-place
    increments of the counters of a threshold table, one voxel of the
    distance field at a time. */
module Histograms {
  import opened Grid
  import opened Images
  import opened Counting
  import opened Tallies

  /** Itable: a table of n thresholds with the counters num and denom. The
      thresholds t0 .. t1 enter only through the bins passed with it. */
  class Itable {
    var n: int
    var num: array<int>
    var denom: array<int>

    ghost predicate Valid()
      reads this
    {
      n >= 0 && num.Length == n && denom.Length == n && num != denom
    }
  }

  /** H4table: a table of n thresholds with the four censoring histograms
      and the two counters of values beyond the last threshold. */
  class H4table {
    var n: int
    var obs: array<int>
    var cen: array<int>
    var nco: array<int>
    var ncc: array<int>
    var upperobs: int
    var uppercen: int

    ghost predicate Valid()
      reads this
    {
      n >= 0 && obs.Length == n && cen.Length == n && nco.Length == n && ncc.Length == n &&
      obs != cen && obs != nco && obs != ncc && cen != nco && cen != ncc && nco != ncc
    }

    /** The obs side: obs, nco and upperobs. */
    ghost function ObsCounts(): Counts
      reads this, obs, nco
    {
      Counts(obs[..], nco[..], upperobs)
    }

    /** The cen side: cen, ncc and uppercen. */
    ghost function CenCounts(): Counts
      reads this, cen, ncc
    {
      Counts(cen[..], ncc[..], uppercen)
    }
  }

  /** Adds one to a[lo..hi]; nothing when the range is empty. */
  method IncrementRange(a: array<int>, lo: int, hi: int)
    requires 0 <= lo && hi < a.Length
    modifies a
    ensures forall j :: 0 <= j < a.Length ==> a[j] == old(a[j]) + (if lo <= j <= hi then 1 else 0)
  {
    var j := lo;
    while j <= hi
      invariant lo <= j <= Max(lo, hi + 1)
      invariant forall i :: 0 <= i < a.Length ==> a[i] == old(a[i]) + (if lo <= i < j then 1 else 0)
    {
      a[j] := a[j] + 1;
      j := j + 1;
    }
  }

  /** hist3d: resets the table, then counts in num[j] the voxels whose bin is
      at most j; denom[j] is the number of voxels. */
  method Hist3d(v: IntImage, bins: Bins, count: Itable)
    requires v.Valid() && count.Valid()
    requires v.data != count.num && v.data != count.denom
    modifies count.num, count.denom
    ensures forall j :: 0 <= j < count.n ==>
      count.denom[j] == v.length && count.num[j] == NaiveCount(v.data[..], bins, j)
    ensures forall j :: 0 <= j < count.n ==> 0 <= count.num[j] <= count.denom[j]
    ensures forall i, j :: 0 <= i <= j < count.n ==> count.num[i] <= count.num[j]
  {
    var i := 0;
    while i < count.n
      invariant 0 <= i <= count.n
      invariant forall j :: 0 <= j < i ==> count.num[j] == 0 && count.denom[j] == v.length
    {
      count.num[i] := 0;
      count.denom[i] := v.length;
      i := i + 1;
    }

    i := v.length;
    var ip := 0;
    while i != 0
      invariant 0 <= ip <= v.length && i == v.length - ip
      invariant forall j :: 0 <= j < count.n ==>
        count.denom[j] == v.length && count.num[j] == NaiveCount(v.data[..ip], bins, j)
    {
      var k := bins.ceilVal(v.data[ip]);
      k := Max(k, 0);
      IncrementRange(count.num, k, count.n - 1);
      forall j | 0 <= j < count.n
        ensures count.num[j] == NaiveCount(v.data[..ip + 1], bins, j)
      {
        assert v.data[..ip + 1][..ip] == v.data[..ip];
      }
      i, ip := i - 1, ip + 1;
    }
    assert v.data[..ip] == v.data[..];

    forall i, j | 0 <= i <= j < count.n
      ensures count.num[i] <= count.num[j]
    {
      NaiveCountMono(v.data[..], bins, i, j);
    }
  }

  /** The body of the x loop of hist3dminus: one voxel with distance value
      val and border distance border adds one to denom[0..kbord] and, when
      kval <= kbord, to num[kval..kbord]; that is, to exactly the counters
      that count it. */
  method MinusVoxel(val: int, border: int, bins: Bins, count: Itable)
    requires count.Valid()
    modifies count.num, count.denom
    ensures forall j :: 0 <= j < count.n ==>
      count.denom[j] == old(count.denom[j]) + (if Hits(count.n, bins, At(Denom, j), val, border) then 1 else 0) &&
      count.num[j] == old(count.num[j]) + (if Hits(count.n, bins, At(Num, j), val, border) then 1 else 0)
  {
    var kbord := bins.floorBorder(border);
    kbord := Min(kbord, count.n - 1);
    if kbord >= 0 {
      IncrementRange(count.denom, 0, kbord);
    }

    var kval := bins.ceilVal(val);
    kval := Max(kval, 0);
    if kval <= kbord {
      IncrementRange(count.num, kval, kbord);
    }
  }

  /** One step of the x loop of hist3dminus: voxel (x, y, z), whose border
      distance is the smaller of its x distance and byz, is added to the
      table, which then holds the tally up to the next voxel. */
  method MinusCell(v: IntImage, rule: BorderRule, bins: Bins, count: Itable, x: int, y: int, z: int, byz: int,
                   ghost f: Field, ghost num0: seq<int>, ghost denom0: seq<int>)
    requires v.Valid() && count.Valid()
    requires v.data != count.num && v.data != count.denom
    requires f == Field(v.data[..], v.Shape(), rule) && 0 <= x < v.Mx && 0 <= y < v.My && 0 <= z < v.Mz
    requires byz == Min(Min(y + 1, v.My - y), Min(z + 1, v.Mz - z))
    requires MinusTallied(count.num[..], count.denom[..], num0, denom0, f, bins, x, y, z)
    modifies count.num, count.denom
    ensures MinusTallied(count.num[..], count.denom[..], num0, denom0, f, bins, x + 1, y, z)
  {
    var bx := Min(x + 1, (if rule == AsWritten then v.My else v.Mx) - x);
    var border := Min(bx, byz);
    assert border == f.BorderAt(x, y, z);
    ghost var num1, denom1 := count.num[..], count.denom[..];
    var val := v.data[Idx(v.Shape(), x, y, z)];
    MinusVoxel(val, border, bins, count);
    MinusStep(num1, denom1, count.num[..], count.denom[..], num0, denom0, f, bins, x, y, z);
  }

  /** The x loop of hist3dminus over row y of plane z, whose rows and plane
      give the voxels a border distance of at most byz. */
  method MinusRow(v: IntImage, rule: BorderRule, bins: Bins, count: Itable, y: int, z: int, byz: int,
                  ghost f: Field, ghost num0: seq<int>, ghost denom0: seq<int>)
    requires v.Valid() && count.Valid()
    requires v.data != count.num && v.data != count.denom
    requires f == Field(v.data[..], v.Shape(), rule) && 0 <= y < v.My && 0 <= z < v.Mz
    requires byz == Min(Min(y + 1, v.My - y), Min(z + 1, v.Mz - z))
    requires MinusTallied(count.num[..], count.denom[..], num0, denom0, f, bins, 0, y, z)
    modifies count.num, count.denom
    ensures MinusTallied(count.num[..], count.denom[..], num0, denom0, f, bins, 0, y + 1, z)
  {
    var x := 0;
    while x < v.Mx
      invariant 0 <= x <= v.Mx
      invariant MinusTallied(count.num[..], count.denom[..], num0, denom0, f, bins, x, y, z)
    {
      MinusCell(v, rule, bins, count, x, y, z, byz, f, num0, denom0);
      x := x + 1;
    }
    MinusRowEnd(count.num[..], count.denom[..], num0, denom0, f, bins, y, z);
  }

  /** The y loop of hist3dminus over plane z, whose voxels have a border
      distance of at most bz. */
  method MinusPlane(v: IntImage, rule: BorderRule, bins: Bins, count: Itable, z: int, bz: int,
                    ghost f: Field, ghost num0: seq<int>, ghost denom0: seq<int>)
    requires v.Valid() && count.Valid()
    requires v.data != count.num && v.data != count.denom
    requires f == Field(v.data[..], v.Shape(), rule) && 0 <= z < v.Mz
    requires bz == Min(z + 1, v.Mz - z)
    requires MinusTallied(count.num[..], count.denom[..], num0, denom0, f, bins, 0, 0, z)
    modifies count.num, count.denom
    ensures MinusTallied(count.num[..], count.denom[..], num0, denom0, f, bins, 0, 0, z + 1)
  {
    var y := 0;
    while y < v.My
      invariant 0 <= y <= v.My
      invariant MinusTallied(count.num[..], count.denom[..], num0, denom0, f, bins, 0, y, z)
    {
      var bY := Min(y + 1, v.My - y);
      var byz := Min(bY, bz);
      MinusRow(v, rule, bins, count, y, z, byz, f, num0, denom0);
      y := y + 1;
    }
    MinusPlaneEnd(count.num[..], count.denom[..], num0, denom0, f, bins, z);
  }

  /** The z loop of hist3dminus. */
  method MinusScan(v: IntImage, rule: BorderRule, bins: Bins, count: Itable,
                   ghost f: Field, ghost num0: seq<int>, ghost denom0: seq<int>)
    requires v.Valid() && count.Valid()
    requires v.data != count.num && v.data != count.denom
    requires f == Field(v.data[..], v.Shape(), rule)
    requires MinusTallied(count.num[..], count.denom[..], num0, denom0, f, bins, 0, 0, 0)
    modifies count.num, count.denom
    ensures MinusTallied(count.num[..], count.denom[..], num0, denom0, f, bins, 0, 0, v.Mz)
  {
    var z := 0;
    while z < v.Mz
      invariant 0 <= z <= v.Mz
      invariant MinusTallied(count.num[..], count.denom[..], num0, denom0, f, bins, 0, 0, z)
    {
      var bz := Min(z + 1, v.Mz - z);
      MinusPlane(v, rule, bins, count, z, bz, f, num0, denom0);
      z := z + 1;
    }
  }

  /** hist3dminus: adds to denom[j] the voxels at least the j-th threshold
      from the border and to num[j] those of them whose distance bin is at
      most j, on top of what the table already holds. The additions keep
      num[j] <= denom[j] and keep denom nonincreasing in j. */
  method Hist3dMinus(v: IntImage, rule: BorderRule, bins: Bins, count: Itable)
    requires v.Valid() && count.Valid()
    requires v.data != count.num && v.data != count.denom
    modifies count.num, count.denom
    ensures forall j :: 0 <= j < count.n ==>
      count.denom[j] == old(count.denom[j]) + CountVoxels(Field(v.data[..], v.Shape(), rule), count.n, bins, At(Denom, j)) &&
      count.num[j] == old(count.num[j]) + CountVoxels(Field(v.data[..], v.Shape(), rule), count.n, bins, At(Num, j))
    ensures (forall j :: 0 <= j < count.n ==> old(count.num[j]) <= old(count.denom[j])) ==>
      forall j :: 0 <= j < count.n ==> count.num[j] <= count.denom[j]
    ensures (forall i, j :: 0 <= i <= j < count.n ==> old(count.denom[j]) <= old(count.denom[i])) ==>
      forall i, j :: 0 <= i <= j < count.n ==> count.denom[j] <= count.denom[i]
  {
    ghost var f := Field(v.data[..], v.Shape(), rule);
    ghost var num0, denom0 := count.num[..], count.denom[..];
    TalliedStart(num0, f, count.n, bins, Num);
    TalliedStart(denom0, f, count.n, bins, Denom);
    MinusScan(v, rule, bins, count, f, num0, denom0);
    MinusTotals(count.num[..], count.denom[..], num0, denom0, f, bins);
  }

  /** The body of the x loop of hist3dCen: one voxel with distance value val
      and border distance border. An uncensored voxel raises obs and nco at
      its distance bin and cen and ncc at its border bin; a censored one
      raises obs at the smaller of the two bins and cen at its border bin.
      A bin at or beyond n raises upperobs or uppercen instead, a negative
      bin nothing. */
  method CenVoxel(val: int, border: int, vside: real, bins: Bins, count: H4table)
    requires vside > 0.0 && count.Valid()
    modifies count`upperobs, count`uppercen, count.obs, count.cen, count.nco, count.ncc
    ensures count.ObsCounts() == Added(old(count.ObsCounts()), count.n, bins, ObsSide, val, border)
    ensures count.CenCounts() == Added(old(count.CenCounts()), count.n, bins, CenSide, val, border)
  {
    var realborder := BorderLength(vside, border);
    var kbord := bins.floorBorder(border);
    var realval := Distance(vside, val);
    var kval := bins.ceilVal(val);
    UncensoredInReals(vside, val, border);

    if realval <= realborder {
      if kval >= count.n {
        count.upperobs := count.upperobs + 1;
      } else if kval >= 0 {
        count.obs[kval] := count.obs[kval] + 1;
        count.nco[kval] := count.nco[kval] + 1;
      }
      if kbord >= count.n {
        count.uppercen := count.uppercen + 1;
      } else if kbord >= 0 {
        count.cen[kbord] := count.cen[kbord] + 1;
        count.ncc[kbord] := count.ncc[kbord] + 1;
      }
    } else {
      kval := Min(kval, kbord);
      if kval >= count.n {
        count.upperobs := count.upperobs + 1;
      } else if kval >= 0 {
        count.obs[kval] := count.obs[kval] + 1;
      }
      if kbord >= count.n {
        count.uppercen := count.uppercen + 1;
      } else if kbord >= 0 {
        count.cen[kbord] := count.cen[kbord] + 1;
      }
    }
  }

  /** One step of the x loop of hist3dCen: voxel (x, y, z), whose border
      distance is the smaller of its x distance and byz, is added to the
      table, which then holds the tally up to the next voxel. */
  method CenCell(v: IntImage, rule: BorderRule, vside: real, bins: Bins, count: H4table, x: int, y: int, z: int, byz: int,
                 ghost f: Field, ghost obs0: Counts, ghost cen0: Counts)
    requires vside > 0.0 && v.Valid() && count.Valid()
    requires v.data != count.obs && v.data != count.cen && v.data != count.nco && v.data != count.ncc
    requires f == Field(v.data[..], v.Shape(), rule) && 0 <= x < v.Mx && 0 <= y < v.My && 0 <= z < v.Mz
    requires byz == Min(Min(y + 1, v.My - y), Min(z + 1, v.Mz - z))
    requires CenTallied(count.ObsCounts(), count.CenCounts(), obs0, cen0, f, bins, x, y, z)
    modifies count`upperobs, count`uppercen, count.obs, count.cen, count.nco, count.ncc
    ensures CenTallied(count.ObsCounts(), count.CenCounts(), obs0, cen0, f, bins, x + 1, y, z)
  {
    var bx := Min(x + 1, (if rule == AsWritten then v.My else v.Mx) - x);
    var border := Min(bx, byz);
    assert border == f.BorderAt(x, y, z);
    ghost var obs1, cen1 := count.ObsCounts(), count.CenCounts();
    var val := v.data[Idx(v.Shape(), x, y, z)];
    CenVoxel(val, border, vside, bins, count);
    CenStep(obs1, cen1, count.ObsCounts(), count.CenCounts(), obs0, cen0, f, bins, x, y, z);
  }

  /** The x loop of hist3dCen over row y of plane z, whose rows and plane
      give the voxels a border distance of at most byz. */
  method CenRow(v: IntImage, rule: BorderRule, vside: real, bins: Bins, count: H4table, y: int, z: int, byz: int,
                ghost f: Field, ghost obs0: Counts, ghost cen0: Counts)
    requires vside > 0.0 && v.Valid() && count.Valid()
    requires v.data != count.obs && v.data != count.cen && v.data != count.nco && v.data != count.ncc
    requires f == Field(v.data[..], v.Shape(), rule) && 0 <= y < v.My && 0 <= z < v.Mz
    requires byz == Min(Min(y + 1, v.My - y), Min(z + 1, v.Mz - z))
    requires CenTallied(count.ObsCounts(), count.CenCounts(), obs0, cen0, f, bins, 0, y, z)
    modifies count`upperobs, count`uppercen, count.obs, count.cen, count.nco, count.ncc
    ensures CenTallied(count.ObsCounts(), count.CenCounts(), obs0, cen0, f, bins, v.Mx, y, z)
  {
    var x := 0;
    while x < v.Mx
      invariant 0 <= x <= v.Mx
      invariant CenTallied(count.ObsCounts(), count.CenCounts(), obs0, cen0, f, bins, x, y, z)
    {
      CenCell(v, rule, vside, bins, count, x, y, z, byz, f, obs0, cen0);
      x := x + 1;
    }
  }

  /** The y loop of hist3dCen over plane z, whose voxels have a border
      distance of at most bz. */
  method CenPlane(v: IntImage, rule: BorderRule, vside: real, bins: Bins, count: H4table, z: int, bz: int,
                  ghost f: Field, ghost obs0: Counts, ghost cen0: Counts)
    requires vside > 0.0 && v.Valid() && count.Valid() && |obs0.main| == count.n && |cen0.main| == count.n
    requires v.data != count.obs && v.data != count.cen && v.data != count.nco && v.data != count.ncc
    requires f == Field(v.data[..], v.Shape(), rule) && 0 <= z < v.Mz
    requires bz == Min(z + 1, v.Mz - z)
    requires CenTallied(count.ObsCounts(), count.CenCounts(), obs0, cen0, f, bins, 0, 0, z)
    modifies count`upperobs, count`uppercen, count.obs, count.cen, count.nco, count.ncc
    ensures CenTallied(count.ObsCounts(), count.CenCounts(), obs0, cen0, f, bins, 0, 0, z + 1)
  {
    var y := 0;
    while y < v.My
      invariant 0 <= y <= v.My
      invariant CenTallied(count.ObsCounts(), count.CenCounts(), obs0, cen0, f, bins, 0, y, z)
    {
      var bY := Min(y + 1, v.My - y);
      var byz := Min(bY, bz);
      CenRow(v, rule, vside, bins, count, y, z, byz, f, obs0, cen0);
      CenRowEnd(count.ObsCounts(), count.CenCounts(), obs0, cen0, f, bins, y, z);
      y := y + 1;
    }
    CenPlaneEnd(count.ObsCounts(), count.CenCounts(), obs0, cen0, f, bins, z);
  }

  /** The z loop of hist3dCen. */
  method CenScan(v: IntImage, rule: BorderRule, vside: real, bins: Bins, count: H4table,
                 ghost f: Field, ghost obs0: Counts, ghost cen0: Counts)
    requires vside > 0.0 && v.Valid() && count.Valid() && |obs0.main| == count.n && |cen0.main| == count.n
    requires v.data != count.obs && v.data != count.cen && v.data != count.nco && v.data != count.ncc
    requires f == Field(v.data[..], v.Shape(), rule)
    requires CenTallied(count.ObsCounts(), count.CenCounts(), obs0, cen0, f, bins, 0, 0, 0)
    modifies count`upperobs, count`uppercen, count.obs, count.cen, count.nco, count.ncc
    ensures CenTallied(count.ObsCounts(), count.CenCounts(), obs0, cen0, f, bins, 0, 0, v.Mz)
  {
    var z := 0;
    while z < v.Mz
      invariant 0 <= z <= v.Mz
      invariant CenTallied(count.ObsCounts(), count.CenCounts(), obs0, cen0, f, bins, 0, 0, z)
    {
      var bz := Min(z + 1, v.Mz - z);
      CenPlane(v, rule, vside, bins, count, z, bz, f, obs0, cen0);
      z := z + 1;
    }
  }

  /** hist3dCen: scans the field once and leaves each side of the table
      (obs, nco and upperobs; cen, ncc and uppercen) holding its old value
      tallied over every voxel of the field. SideTotals says what that
      total is. */
  method Hist3dCen(v: IntImage, rule: BorderRule, vside: real, bins: Bins, count: H4table)
    requires vside > 0.0 && v.Valid() && count.Valid()
    requires v.data != count.obs && v.data != count.cen && v.data != count.nco && v.data != count.ncc
    modifies count`upperobs, count`uppercen, count.obs, count.cen, count.nco, count.ncc
    ensures count.ObsCounts() == SideTotal(old(count.ObsCounts()), Field(v.data[..], v.Shape(), rule), bins, ObsSide)
    ensures count.CenCounts() == SideTotal(old(count.CenCounts()), Field(v.data[..], v.Shape(), rule), bins, CenSide)
  {
    ghost var f := Field(v.data[..], v.Shape(), rule);
    ghost var obs0, cen0 := count.ObsCounts(), count.CenCounts();
    SideStart(obs0, f, bins, ObsSide);
    SideStart(cen0, f, bins, CenSide);
    CenScan(v, rule, vside, bins, count, f, obs0, cen0);
  }
}
