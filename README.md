# Voxel pipeline of the 3D empty-space estimators

This project models `src/f3.c`, the voxel pipeline behind the empty-space
function estimates F3 for a point pattern in a three-dimensional box. It
is written in Dafny and its properties are proved. The pipeline has four
parts:

1. `cts2bin` rasterises the points into a binary image with one byte per
   voxel. A voxel holds 0 where a point falls and 1 elsewhere.
2. `distrans3` runs a two-pass chamfer distance transform with the integer
   steps 41, 58 and 71. These stand for 1, sqrt 2 and sqrt 3 voxel sides.
3. One of three accumulators adds the distance image to a caller's table:
   - `hist3d`: naive cumulative counts;
   - `hist3dminus`: border-corrected minus-sampling counts;
   - `hist3dCen`: four censoring histograms and two tail counters.
4. The calling routines `phatnaive`, `phatminus` and `p3hat4` chain the
   three stages. The `ok` flag of the allocators gates each stage.

The model keeps the form of the C code:
- The images are classes with an `array?` buffer, which is null until
  allocated.
- The count tables are classes whose arrays and tail counters the
  accumulators update in place.
- Every loop of the source is a `while` loop with invariants.
- Each nested level of the z/y/x loops is its own method (for example
  `CenScan`, `CenPlane`, `CenRow`, `CenCell`). Each method is proved
  against a scan-order tally: the value of each counter once the scan has
  reached a cursor `(x, y, z)`.

Modules:
- `Grid`: the VALUE index, scan order, the INTERVAL/BOX macros and the two
  neighbour tables.
- `Images`: image structures and allocation.
- `Raster`: cts2bin.
- `Chamfer`: distrans3.
- `Counting`: border distances, bins, and what each counter counts.
- `Tallies`: the scan-order tallies.
- `Histograms`: the three accumulators.
- `Pipeline`: the three calling routines.

Floating-point bin computations are parameters. A `Bins` value supplies:
- the distance bin `(int) ceil((val * vside / 41 - t0) / width)`;
- the border bin `(int) floor((vside * border - t0) / width)`.

The border distance of hist3dminus and hist3dCen takes its x term
against `My`, not `Mx` (src/f3.c:300 and 364). The accumulators and the
calling routines take a `BorderRule`. `AsWritten` reproduces the source,
and `Intended` measures against `Mx`. The two give the same counts on
grids with `Mx == My`.

`ThresholdBins` is the exact real-number instance, and the `...Meaning`
lemmas state what the counters count under it. Coordinates are exact
reals. The C `ceil` of a coordinate is modelled exactly.

## Model

| member | source | states |
|---|---|---|
| `Grid.Min` | src/f3.c:44 | the MIN macro returns one of its arguments and is at most both |
| `Grid.Max` | src/f3.c:45 | the MAX macro returns one of its arguments and is at least both |
| `Grid.Ceil` | src/f3.c:111-113 | `ceil` followed by the `(int)` cast is the least integer at or above its argument |
| `Grid.Floor` | src/f3.c:303 | `floor` followed by the `(int)` cast is the greatest integer at or below its argument |
| `Grid.Idx` | src/f3.c:59-60 | the VALUE index of every voxel of an Mx x My x Mz grid lies in `[0, Mx*My*Mz)` |
| `Grid.IdxLexLess` | src/f3.c:162-165 | the z/y/x loop order is the order of the flat buffer: an earlier voxel has a smaller index |
| `Grid.IdxInjective` | src/f3.c:59-60 | distinct voxels have distinct VALUE positions |
| `Grid.Coords` | src/f3.c:59-60 | every buffer position is the VALUE position of some voxel of the grid |
| `Grid.Interval` | src/f3.c:171-172 | INTERVAL: a move it allows from inside `[0, MW)` stays inside `[0, MW)` |
| `Grid.InBox` | src/f3.c:173-174 | BOX: the neighbour it allows lies in the grid and its VALUE position in the buffer |
| `Grid.ForwardOffsetsShape` | src/f3.c:179-198 | the 13 forward TEST lines all reach voxels visited earlier in the forward scan, each with the weight 41/58/71 of a 1/2/3-axis move |
| `Grid.BackwardOffsetsShape` | src/f3.c:215-234 | the 13 backward TEST lines all reach voxels visited earlier in the backward scan, with the weights of their shape |
| `Grid.OffsetsMirror` | src/f3.c:179-234 | the backward neighbourhood is exactly the mirror of the forward one |
| `Images.AllocFlagAsWritten` | src/f3.c:72-76 | the flag as written: success whatever the allocator returned |
| `Images.AllocFlag` | src/f3.c:72-76 | the intended flag: success exactly when the allocator did not return null |
| `Images.NullAllocationReportedAsSuccess` | src/f3.c:87-91 | on a null allocation the written flag says success and the intended flag says failure |
| `Images.BinaryImage.Alloc` | src/f3.c:63-77 | allocBinImage with the intended flag: `length == Mx*My*Mz`; ok exactly when the allocator succeeds, and then a fresh buffer of `length` bytes |
| `Images.IntImage.Alloc` | src/f3.c:79-92 | allocIntImage with the intended flag: as allocBinImage, for an integer buffer |
| `Raster.AxisSize` | src/f3.c:111-113 | `ceil(extent / vside) + 1` is at least 1, and the grid covers the extent with at most one voxel to spare |
| `Raster.GridOf` | src/f3.c:111-113 | the grid that cts2bin gives the image has positive dimensions |
| `Raster.VoxelCoord` | src/f3.c:123-125 | `ceil((c - lo) / vside) - 1` is the voxel `l` with `l < (c - lo) / vside <= l + 1` |
| `Raster.Cts2Bin` | src/f3.c:97-133 | the image has the box's grid; ok exactly when allocation succeeds (with the intended flag); then every voxel is 0 or 1, and a voxel is 0 exactly when some point's computed voxel index is that voxel (so out-of-grid points change nothing); with no points every voxel is 1 |
| `Raster.UnitCubeHalfSide` | src/f3.c:111-125 | the unit cube with side 0.5 is a 3 x 3 x 3 grid, and the point (0.5, 0.5, 0.5) falls in voxel (0, 0, 0) |
| `Chamfer.CeilSqrt` | src/f3.c:154-158 | the integer ceiling of a square root: the least r with `r * r >= s` |
| `Chamfer.Infinity` | src/f3.c:154-158 | `infinity = ceil(71 * sqrt(Mx^2 + My^2 + Mz^2))`, computed exactly; it is at least 71 |
| `Chamfer.Relaxed` | src/f3.c:175-199 | the TEST block started from q never ends above q |
| `Chamfer.Relax` | src/f3.c:169-199 | the loop over the TEST lines leaves the running minimum at `Relaxed` of the offsets, in source order |
| `Chamfer.RelaxedUpper` | src/f3.c:175-177 | relaxing never raises q, and leaves q no larger than any in-box neighbour plus its step |
| `Chamfer.RelaxedLower` | src/f3.c:175-177 | relaxing keeps q at or above any bound that the start value and every in-box candidate meet |
| `Chamfer.RelaxedAttained` | src/f3.c:175-199 | the TEST block ends at its start value or at the candidate of one in-box neighbour, so with `RelaxedUpper` it is the least of them |
| `Chamfer.RelaxedFrame` | src/f3.c:173-177 | the TEST block reads only the in-box neighbours: two fields that agree there give the same result |
| `Chamfer.ForwardAtFrame` | src/f3.c:166-200 | the value the forward pass writes at a voxel depends only on the voxels before it in scan order |
| `Chamfer.BackwardAtFrame` | src/f3.c:213-237 | the value the backward pass writes at a voxel depends only on the voxels after it in scan order |
| `Chamfer.ForwardValue` | src/f3.c:166-200 | a forward-pass value is 0 at a point and in `[41, infinity]` elsewhere (exactly `infinity` with no points), and is consistent with its forward neighbours |
| `Chamfer.ForwardEarlierKept` | src/f3.c:165-202 | writing one voxel leaves every earlier voxel holding its forward value and forward-consistent |
| `Chamfer.ForwardStep` | src/f3.c:165-202 | writing a voxel's forward value keeps the forward invariant: every earlier voxel settled, forward-consistent and holding the value the forward pass writes there |
| `Chamfer.ForwardVoxel` | src/f3.c:166-200 | the body of the forward x loop writes 0 on a point and otherwise the TEST block's result from `infinity` at that voxel, changes nothing else, and moves the forward invariant on by one voxel |
| `Chamfer.ForwardRow` | src/f3.c:165-202 | the forward x loop moves the forward invariant from the start of row y to the start of row y+1 |
| `Chamfer.ForwardPass` | src/f3.c:160-204 | after the forward pass every voxel holds what the pass writes there (0 at a point, else the TEST block over its forward neighbours from `infinity`), is in `[41, infinity]` off the points, all `infinity` with no points, and forward-consistent |
| `Chamfer.BackwardValue` | src/f3.c:213-236 | a backward-pass value never exceeds the current one, keeps a zero at zero, stays in `[41, infinity]`, and is consistent with its backward neighbours |
| `Chamfer.BackwardLaterKept` | src/f3.c:212-238 | writing one voxel leaves every later voxel holding its backward value and backward-consistent |
| `Chamfer.BackwardStep` | src/f3.c:212-238 | writing a voxel's backward value keeps the backward invariant: every later voxel holds its backward value and is backward-consistent, and the rest still hold the forward field |
| `Chamfer.BackwardVoxel` | src/f3.c:213-237 | the body of the backward x loop leaves a zero alone, writes the TEST block's result from the voxel's own value otherwise, changes nothing else, and moves the backward invariant on by one voxel |
| `Chamfer.BackwardRow` | src/f3.c:211-238 | the backward x loop moves the backward invariant from the end of row y to the end of row y-1 |
| `Chamfer.BackwardPlane` | src/f3.c:209-239 | the backward y loop moves the backward invariant from the last row of plane z to the last row of plane z-1 |
| `Chamfer.BackwardStart` | src/f3.c:207-209 | before the backward pass the invariant holds with nothing visited and the field equal to the forward field |
| `Chamfer.BackwardFinish` | src/f3.c:207-240 | once every voxel is visited, each holds its backward value, no voxel rose, zeros stayed exactly where they were, and every voxel is backward-consistent |
| `Chamfer.BackwardPass` | src/f3.c:207-240 | after the backward pass every voxel holds what the pass writes there (a zero stays 0, else the TEST block over its backward neighbours from its forward value); no voxel rose, zeros are where they were, other voxels stay in `[41, infinity]`, an all-`infinity` field is unchanged, and every voxel is backward-consistent |
| `Chamfer.Distrans3` | src/f3.c:135-241 | the output has the shape of the input; ok exactly when allocation succeeds (with the intended flag); then the field is the backward pass applied to the forward pass of the binary image (`ChamferPasses`), 0 exactly at points, in `[41, infinity]` elsewhere, all `infinity` with no points, and backward-consistent everywhere |
| `Chamfer.ForwardPrefixAgree` | src/f3.c:160-204 | two fields that both hold the forward pass's values for one binary image agree on every position before k |
| `Chamfer.BackwardSuffixAgree` | src/f3.c:207-240 | two fields that both hold the backward pass's values for one forward field agree on every position from k on |
| `Chamfer.ChamferPassesUnique` | src/f3.c:160-240 | the two passes determine their output: a binary image has exactly one forward field and one final field |
| `Chamfer.RowNeighbour` | src/f3.c:171-199 | in a grid one voxel high and deep the only in-box neighbours are the two along the row, at step 41 |
| `Chamfer.InfinityBeyondRow` | src/f3.c:154-158 | `infinity` exceeds 71 times the row length |
| `Chamfer.RowForward` | src/f3.c:160-204 | on a row one voxel high and deep whose only point is voxel 0, the forward pass gives voxel x the value 41 * x |
| `Chamfer.RowBackward` | src/f3.c:207-240 | on such a row the backward pass keeps 41 * x at every voxel |
| `Chamfer.RowField` | src/f3.c:135-241 | on such a row distrans3 yields 41 * x at voxel x and nothing else; for three voxels, `[0, 41, 82]` |
| `Counting.Border` | src/f3.c:294-301 | the intended border distance: the distance in voxels to the nearest of the six faces, at least 1 inside the grid (the x term against Mx) |
| `Counting.Field.BorderAt` | src/f3.c:294-301 | the border distance of a voxel under a field's rule: as written (x term against My, src/f3.c:300 and 364) or intended; both are `Border` when Mx == My |
| `Counting.BorderAsWrittenSquare` | src/f3.c:300 | the x-border as written agrees with the true border on grids with `Mx == My` |
| `Counting.BorderAsWrittenTooFar` | src/f3.c:300 | on a 2 x 5 x 5 grid, voxel (1, 2, 2) lies on a face but gets border 2 as written |
| `Counting.BorderAsWrittenNegative` | src/f3.c:364 | on a 3 x 1 x 1 grid, voxel (2, 0, 0) gets border -1 as written |
| `Counting.SquareGridRulesAgree` | src/f3.c:294-301 | on a grid with `Mx == My` every counter counts the same voxels under the written and the intended border rule |
| `Counting.MinusBorderBin` | src/f3.c:303-304 | kbord: the border bin clipped to `n - 1`, the greatest index at most both |
| `Counting.ValueBin` | src/f3.c:270-271 | kval of hist3d and hist3dminus (also src/f3.c:313-314): the distance bin raised to 0, the least index at least both |
| `Counting.CenObsBin` | src/f3.c:381-399 | the obs bin of hist3dCen: the distance bin for an uncensored voxel, else the smaller of the distance and border bins, so a censored voxel never lands beyond its border bin |
| `Counting.Hits` | src/f3.c:303-329 | which counters one voxel raises in hist3dminus (and in hist3dCen, src/f3.c:381-409): every histogram entry it raises lies inside the table |
| `Counting.SideHits` | src/f3.c:381-409 | per voxel and side, hist3dCen raises exactly one of the histogram entry and the upper counter at the side's bin (nothing for a negative bin), and the uncensored histogram at the same entry only for an uncensored voxel |
| `Counting.MinusNumWithinDenom` | src/f3.c:303-329 | over a field, num[j] gains no more than denom[j] |
| `Counting.MinusDenomNonincreasing` | src/f3.c:303-310 | over a field, denom[j] gains no more than denom[i] for `i <= j` |
| `Counting.CenNcoWithinObs` | src/f3.c:384-403 | over a field, nco[k] gains no more than obs[k] |
| `Counting.CenNccWithinCen` | src/f3.c:390-408 | over a field, ncc[k] gains no more than cen[k] |
| `Counting.CenKeepsEveryVoxel` | src/f3.c:381-409 | when no bin is negative, each side counts every voxel once, in its histogram or its upper counter |
| `Counting.Width` | src/f3.c:261 | the threshold spacing `(t1 - t0) / (n - 1)` is positive for `n >= 2`, `t0 < t1` |
| `Counting.CeilAtMost` | src/f3.c:313 | the bin `ceil((a - t0) / width)` is at most j exactly when a is at most the threshold `t0 + j * width` |
| `Counting.FloorAtLeast` | src/f3.c:303 | the bin `floor((b - t0) / width)` is at least j exactly when b is at least the threshold `t0 + j * width` |
| `Counting.MinusCountersMeaning` | src/f3.c:303-329 | with exact bins, denom[j] counts a voxel exactly when its border length is at least r_j, and num[j] when in addition its distance is at most r_j |
| `Counting.NaiveCounterMeaning` | src/f3.c:270-274 | with exact bins, hist3d counts a value in num[j] exactly when its distance is at most r_j |
| `Counting.UncensoredInReals` | src/f3.c:366-381 | the test `scale * val <= vside * border` is the integer test `val <= 41 * border` |
| `Counting.NaiveCountMono` | src/f3.c:273-274 | the naive count is nondecreasing in the threshold index |
| `Counting.NaiveCountAll` | src/f3.c:270-274 | a threshold index at or above every value's bin counts every value |
| `Counting.NaiveCountNone` | src/f3.c:271 | no value has a negative bin, so a negative index counts nothing |
| `Counting.NaiveCountConstant` | src/f3.c:268-275 | on a constant field, num[j] counts every voxel or none |
| `Tallies.TalliedStep` | src/f3.c:299-329 | raising every entry that counts the voxel at the cursor moves a histogram's tally on by one voxel |
| `Tallies.MinusStep` | src/f3.c:299-329 | one hist3dminus voxel moves the num and denom tallies on by one voxel |
| `Tallies.MinusTotals` | src/f3.c:294-333 | after the whole field, denom[j] and num[j] have gained their counts; `num <= denom` and a nonincreasing denom are preserved |
| `Tallies.BumpSum` | src/f3.c:384-408 | raising one histogram entry raises the histogram's sum by one; an index outside it changes nothing |
| `Tallies.SideStep` | src/f3.c:381-409 | one hist3dCen voxel moves a side's histogram, uncensored histogram and upper-counter tallies on by one voxel |
| `Tallies.KeptGrid` | src/f3.c:353-412 | over the scan, the histogram sum plus the upper counter gains exactly the voxels with a non-negative bin |
| `Tallies.SideTotals` | src/f3.c:353-412 | after the whole field each side's counters have gained their counts; the histogram plus the upper counter gained one per voxel with a non-negative bin; `nco <= obs` and `ncc <= cen` are preserved |
| `Tallies.CenStep` | src/f3.c:364-409 | one hist3dCen voxel moves both sides' tallies on by one voxel |
| `Histograms.IncrementRange` | src/f3.c:309-310 | `for (j = lo; j <= hi; j++) a[j]++` adds one exactly to `a[lo..hi]` |
| `Histograms.Hist3d` | src/f3.c:243-276 | denom[j] becomes the number of voxels and num[j] the number of values whose bin is at most j; num is within denom and nondecreasing in j |
| `Histograms.MinusVoxel` | src/f3.c:303-329 | one voxel adds one to exactly the entries of denom and num that count it, and indexes only inside `[0, n)` |
| `Histograms.MinusCell` | src/f3.c:299-329 | the x-loop body of hist3dminus, with the x-border of the field's rule (against My as written), moves the tallies on by one voxel |
| `Histograms.MinusRow` | src/f3.c:299-331 | the x loop moves the tallies, under the field's border rule, from the start of row y to the start of row y+1 |
| `Histograms.MinusPlane` | src/f3.c:296-332 | the y loop moves the tallies, under the field's border rule, from the start of plane z to the start of plane z+1 |
| `Histograms.MinusScan` | src/f3.c:294-333 | the z loop tallies the whole field under its border rule |
| `Histograms.Hist3dMinus` | src/f3.c:278-335 | each denom[j] and num[j] gains the field's count for it under the chosen border rule (`AsWritten` is the source); `num <= denom` and a nonincreasing denom are preserved |
| `Histograms.CenVoxel` | src/f3.c:366-409 | one voxel raises each side's bin (obs: distance bin, clamped to the border bin when censored; cen: border bin), its uncensored twin only when uncensored, the upper counter for a bin at or beyond n, and nothing for a negative bin |
| `Histograms.CenCell` | src/f3.c:364-409 | the x-loop body of hist3dCen, with the x-border of the field's rule (against My as written), moves both sides' tallies on by one voxel |
| `Histograms.CenRow` | src/f3.c:362-410 | the x loop moves the tallies, under the field's border rule, from the start of row y to the end of row y |
| `Histograms.CenPlane` | src/f3.c:357-411 | the y loop moves the tallies, under the field's border rule, from the start of plane z to the start of plane z+1 |
| `Histograms.CenScan` | src/f3.c:353-412 | the z loop tallies the whole field under its border rule |
| `Histograms.Hist3dCen` | src/f3.c:337-414 | each side of the table becomes its old value tallied over the whole field under the chosen border rule (`AsWritten` is the source; `SideTotals` gives the counts) |
| `Pipeline.Transform` | src/f3.c:436-439 | cts2bin then distrans3: ok exactly when both allocations succeed (with the intended flag); then the image is the two chamfer passes applied to the pattern's raster (`ChamferPasses`, unique by `ChamferPassesUnique`), all `infinity` when there are no points |
| `Pipeline.PhatNaive` | src/f3.c:447-471 | ok exactly when both allocations succeed (with the intended flag); on failure the table is untouched; on success the table holds hist3d of distrans3's field for the pattern's raster |
| `Pipeline.PhatMinus` | src/f3.c:420-445 | ok as for phatnaive; on failure the table is untouched; on success each counter gains the count of distrans3's field for the pattern, under the chosen border rule, keeping `num <= denom` and a nonincreasing denom |
| `Pipeline.P3hat4` | src/f3.c:473-498 | ok as for phatnaive; on failure both sides are untouched; on success each side is its old value tallied over distrans3's field for the pattern, under the chosen border rule |
| `Pipeline.EmptyPatternNaive` | src/f3.c:447-471 | with no points, phatnaive's num[j] counts every voxel or none, as the bin of `infinity` is at most j or not |

## Left out

- `src/sphevol.c` is not part of this model. It is closed-form floating-point geometry, unrelated to the voxel pipeline.
- Host hooks are not modelled: `R_alloc`, `Rprintf`, `R_CheckUserInterrupt` and the DEBUG messages. Whether the allocator returns null is a boolean parameter (`fails`, `binFails`, `intFails`).
- `freeBinImage` and `freeIntImage` are empty in the source and are left out. Memory release is not modelled.
- Floating-point rounding is not modelled.
  - The bin indices of the accumulators are the `Bins` parameter. No claim is made about how doubles round against the exact `ThresholdBins`.
  - The width `(t1 - t0) / (n - 1)` is undefined for `n == 1` or `t0 == t1`. The `Bins` parameter hides this, and `Width` requires `n >= 2` and `t0 < t1`.
  - Voxel coordinates and `infinity` are computed exactly, over reals and integers. A double `sqrt` or `ceil` that rounds across an integer would differ by one.
- The tables' `t0` and `t1` fields are not modelled. The `vside` parameter of `hist3d` and `hist3dminus` is not modelled either. They enter only through `Bins`.
- 32-bit `int` overflow is not modelled: `Mx*My*Mz`, the distance values and the counters are unbounded integers. The `(int)` casts of out-of-range doubles are also left out.
- Chamfer.Distrans3: states the values the two passes write, voxel by voxel, and that they are unique. It does not prove that these values are least weighted path lengths to a point, which the source does not promise either, nor forward consistency after the backward pass.
- Alloc: the images, Cts2Bin, Distrans3, Transform and the three calling routines use the intended flag `AllocFlag`. With the flag as written (`AllocFlagAsWritten`), a null allocation reports success and the caller writes through a null buffer; that behaviour is undefined in C and is not modelled. The discrepancy is the first row of Findings.
- The C routines take `Itable`/`H4table`, `Point` and `Box` from headers that are not part of this model. They are modelled with only the fields `f3.c` uses.

## Findings

| source | as written | input that shows it | evidently intended | confidence | as-written member | corrected member |
|---|---|---|---|---|---|---|
| src/f3.c:72-76 | `*ok = 0` on a null allocation is overwritten by `*ok = 1`, so allocation always reports success (the same at src/f3.c:87-91) | the allocator returns null | `ok` is 0 after a null allocation, so that the callers stop before writing through the null buffer | high; not executed | `Images.NullAllocationReportedAsSuccess` | `Images.AllocFlag` |
| src/f3.c:300 | the x term of the border distance is `MIN(x + 1, My - x)`, against `My` instead of `Mx` (the same at src/f3.c:364) | on a 2 x 5 x 5 grid, voxel (1, 2, 2) gets border 2 instead of 1; on a 3 x 1 x 1 grid, voxel (2, 0, 0) gets border -1 | `MIN(x + 1, Mx - x)`, the distance to the nearest x-face | high; not executed | `Counting.BorderAsWrittenTooFar` (the `AsWritten` rule of `Counting.Field.BorderAt`) | `Counting.Border` (the `Intended` rule; `Counting.SquareGridRulesAgree` shows the two agree when Mx == My) |
