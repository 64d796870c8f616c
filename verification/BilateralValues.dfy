/** What the bilateral filter computes over the reals: every output pixel is a quotient with a positive weight, edges
    are kept, and inside one intensity bin the filter is a smoothing with known weights. */
module BilateralValues {
  import opened Arithmetic
  import opened Buffers
  import opened BilateralSpec
  import opened BilateralEqual
  import opened BilateralRange

  // The weight is positive.

  /** what counting takes of the kernels */
  ghost predicate Counts(e: Kernels<real>) {
    e.zero == 0.0 && e.one == 1.0 && forall x, y {:trigger e.add(x, y)} :: e.add(x, y) == x + y
  }

  lemma AccumulateGrows(e: Kernels<real>, z: int, w: real, v: real)
    requires Counts(e)
    ensures Accumulate(e, 1, z, w, v) == if e.bin(v) + 2 == z then w + 1.0 else w
  {
  }

  /** sample b0 of row a0 is among a full rows and b more */
  predicate Taken(a0: int, b0: int, a: int, b: int) { a0 < a || (a0 == a && b0 < b) }

  lemma {:induction false} HistogramNotNegative(e: Kernels<real>, f: Stage<real>, z: int, i: int, j: int, a: nat, b: nat)
    requires Counts(e)
    ensures Histogram(e, f, 1, z, i, j, a, b) >= 0.0
    decreases a, b
  {
    if b > 0 {
      HistogramNotNegative(e, f, z, i, j, a, b - 1);
      AccumulateGrows(e, z, Histogram(e, f, 1, z, i, j, a, b - 1), f(0, -4 + a + 8 * i, -4 + 8 * j + b - 1));
    } else if a > 0 {
      HistogramNotNegative(e, f, z, i, j, a - 1, e.side);
    }
  }

  /** A sample in bin z counts. */
  lemma {:induction false} HistogramCounts(e: Kernels<real>, f: Stage<real>, z: int, i: int, j: int, a: nat, b: nat,
                                           a0: nat, b0: nat)
    requires Counts(e) && b0 < e.side && e.bin(f(0, -4 + a0 + 8 * i, -4 + 8 * j + b0)) + 2 == z && Taken(a0, b0, a, b)
    ensures Histogram(e, f, 1, z, i, j, a, b) >= 1.0
    decreases a, b
  {
    if b > 0 {
      HistogramNotNegative(e, f, z, i, j, a, b - 1);
      AccumulateGrows(e, z, Histogram(e, f, 1, z, i, j, a, b - 1), f(0, -4 + a + 8 * i, -4 + 8 * j + b - 1));
      if Taken(a0, b0, a, b - 1) {
        HistogramCounts(e, f, z, i, j, a, b - 1, a0, b0);
      }
    } else {
      HistogramCounts(e, f, z, i, j, a - 1, e.side, a0, b0);
    }
  }

  /** the grid cell nearest to pixel n */
  function Nearest(n: int): int { (n + 4) / 8 }

  /** It takes in the pixel. */
  lemma NearestTakes(n: int) returns (a: nat)
    ensures a < 8 && n == -4 + a + 8 * Nearest(n) == -4 + 8 * Nearest(n) + a
  {
    a := n + 4 - 8 * Nearest(n);
  }

  lemma CellCounts(e: Kernels<real>, exp: real -> real, f: Stage<real>, g: Stage<real>, z: int, u: int, v: int, a: nat, b: nat)
    requires RealKernels(e, exp) && GridLaw(e, f, g) && 0 <= z <= 14 && a < e.side && b < e.side
    requires e.bin(f(0, -4 + a + 8 * u, -4 + 8 * v + b)) + 2 == z
    ensures g(15 + z, u, v) >= 1.0
  {
    assert Counts(e);
    HistogramCounts(e, f, z, u, v, e.side, 0, a, b);
    assert Plane(1, z) == 15 + z;
    assert g(Plane(1, z), u, v) == Histogram(e, f, 1, z, u, v, e.side, 0);
  }

  lemma GridCounts(e: Kernels<real>, exp: real -> real, f: Stage<real>, g: Stage<real>, i: int, j: int, z: int)
    requires RealKernels(e, exp) && e.side >= 8 && GridLaw(e, f, g) && z == e.bin(f(0, i, j)) + 2 && 0 <= z <= 14
    ensures g(15 + z, Nearest(i), Nearest(j)) >= 1.0
  {
    var a := NearestTakes(i);
    var b := NearestTakes(j);
    CellCounts(e, exp, f, g, z, Nearest(i), Nearest(j), a, b);
  }

  lemma BlurAtLeast(exp: real -> real, a: real, b: real, c: real, d: real, f: real)
    requires a >= 0.0 && b >= 0.0 && c >= 0.0 && d >= 0.0 && f >= 0.0
    ensures Blur5(Reals(exp), a, b, c, d, f) >= c
  {
  }

  /** Blurring loses no weight. */
  lemma BluryCounts(e: Kernels<real>, exp: real -> real, s: Stages<real>, i: int, j: int, k: int)
    requires RealKernels(e, exp) && Lawful(e, s) && Within(s.gray, 0.0, 1.0) && 0 <= k < 11
    ensures s.blury(11 + k, i, j) >= s.grid(15 + (k + 2), i, j)
  {
    GridBrackets(e, exp, 0.0, 1.0, s.gray, s.grid);
    forall z | 0 <= z < 11 ensures PlaneBrackets(s.blurz, 11, 0.0, 1.0, z) && PlaneBrackets(s.blurx, 11, 0.0, 1.0, z) {
      BlurZPlane(e, exp, 0.0, 1.0, s.grid, s.blurz, z);
      BlurRowsPlane(e, exp, 0.0, 1.0, s.blurz, s.blurx, z);
    }
    BlurZCounts(e, exp, s.grid, s.blurz, i, j, k);
    BlurRowsCounts(e, exp, s.blurz, s.blurx, i, j, k);
    BlurColsCounts(e, exp, s.blurx, s.blury, i, j, k);
  }

  lemma BlurZCounts(e: Kernels<real>, exp: real -> real, f: Stage<real>, g: Stage<real>, i: int, j: int, k: int)
    requires RealKernels(e, exp) && BlurZLaw(e, f, g) && Brackets(f, 15, 0.0, 1.0) && 0 <= k < 11
    ensures g(11 + k, i, j) >= f(15 + (k + 2), i, j)
  {
    assert BracketAt(f, 15, 0.0, 1.0, k, i, j) && BracketAt(f, 15, 0.0, 1.0, k + 1, i, j) && BracketAt(f, 15, 0.0, 1.0, k + 2, i, j);
    assert BracketAt(f, 15, 0.0, 1.0, k + 3, i, j) && BracketAt(f, 15, 0.0, 1.0, k + 4, i, j);
    BlurAtLeast(exp, f(15 + k, i, j), f(15 + (k + 1), i, j), f(15 + (k + 2), i, j), f(15 + (k + 3), i, j), f(15 + (k + 4), i, j));
    assert g(11 + k, i, j) == BlurZ(e, f, 11 + k, i, j) && Below(11 + k) == 15 + k;
  }

  lemma BlurRowsCounts(e: Kernels<real>, exp: real -> real, f: Stage<real>, g: Stage<real>, i: int, j: int, k: int)
    requires RealKernels(e, exp) && BlurRowsLaw(e, f, g) && PlaneBrackets(f, 11, 0.0, 1.0, k)
    ensures g(11 + k, i, j) >= f(11 + k, i, j)
  {
    assert BracketAt(f, 11, 0.0, 1.0, k, i - 2, j) && BracketAt(f, 11, 0.0, 1.0, k, i - 1, j) && BracketAt(f, 11, 0.0, 1.0, k, i, j);
    assert BracketAt(f, 11, 0.0, 1.0, k, i + 1, j) && BracketAt(f, 11, 0.0, 1.0, k, i + 2, j);
    BlurAtLeast(exp, f(11 + k, i - 2, j), f(11 + k, i - 1, j), f(11 + k, i, j), f(11 + k, i + 1, j), f(11 + k, i + 2, j));
    assert g(11 + k, i, j) == BlurRows(e, f, 11 + k, i, j);
  }

  lemma BlurColsCounts(e: Kernels<real>, exp: real -> real, f: Stage<real>, g: Stage<real>, i: int, j: int, k: int)
    requires RealKernels(e, exp) && BlurColsLaw(e, f, g) && PlaneBrackets(f, 11, 0.0, 1.0, k)
    ensures g(11 + k, i, j) >= f(11 + k, i, j)
  {
    assert BracketAt(f, 11, 0.0, 1.0, k, i, j - 2) && BracketAt(f, 11, 0.0, 1.0, k, i, j - 1) && BracketAt(f, 11, 0.0, 1.0, k, i, j);
    assert BracketAt(f, 11, 0.0, 1.0, k, i, j + 1) && BracketAt(f, 11, 0.0, 1.0, k, i, j + 2);
    BlurAtLeast(exp, f(11 + k, i, j - 2), f(11 + k, i, j - 1), f(11 + k, i, j), f(11 + k, i, j + 1), f(11 + k, i, j + 2));
    assert g(11 + k, i, j) == BlurCols(e, f, 11 + k, i, j);
  }

  lemma LerpPositive(exp: real -> real, t: real, a: real, b: real)
    requires 0.0 <= t <= 1.0 && a >= 0.0 && b >= 0.0
    ensures Lerp(Reals(exp), t, a, b) >= 0.0
    ensures (t < 1.0 && a > 0.0) || (t > 0.0 && b > 0.0) ==> Lerp(Reals(exp), t, a, b) > 0.0
  {
    var p, q := (1.0 - t) * a, t * b;
    LerpIs(exp, t, a, b, p, q);
    assert p >= 0.0 && q >= 0.0;
    assert t < 1.0 && a > 0.0 ==> p > 0.0;
    assert t > 0.0 && b > 0.0 ==> q > 0.0;
  }

  /** The nearest of four corners has weight in the bilinear mean. */
  lemma BilinearPositive(exp: real -> real, x: int, y: int, a00: real, a10: real, a01: real, a11: real)
    requires 0 <= x <= 7 && 0 <= y <= 7 && a00 >= 0.0 && a10 >= 0.0 && a01 >= 0.0 && a11 >= 0.0
    ensures Bilinear(Reals(exp), x, y, a00, a10, a01, a11) >= 0.0
    ensures (if x < 4 then (if y < 4 then a00 else a01) else (if y < 4 then a10 else a11)) > 0.0 ==> Bilinear(Reals(exp), x, y, a00, a10, a01, a11) > 0.0
  {
    var p, q := Eighth(Reals(exp), x), Eighth(Reals(exp), y);
    assert p == x as real / 8.0 && q == y as real / 8.0;
    LerpPositive(exp, p, a00, a10);
    LerpPositive(exp, p, a01, a11);
    LerpPositive(exp, q, Lerp(Reals(exp), p, a00, a10), Lerp(Reals(exp), p, a01, a11));
  }

  /** A pixel's bin is the level below it or the one above, whichever is nearer. */
  lemma BinIs(exp: real -> real, v: real)
    requires 0.0 <= v < 1.0
    ensures SourceKernels(Reals(exp)).bin(v) == Level(Reals(exp), v) + if Between(Reals(exp), v) < 0.5 then 0 else 1
    ensures 0 <= Level(Reals(exp), v) <= 9 && 0.0 <= Between(Reals(exp), v) < 1.0
  {
  }

  lemma NearestIs(n: int)
    ensures Nearest(n) == if n % 8 < 4 then n / 8 else n / 8 + 1
  {
  }

  lemma PlaneWeightPositive(exp: real -> real, f: Stage<real>, z: int, u: int, v: int, x: int, y: int)
    requires PlaneBrackets(f, 11, 0.0, 1.0, z) && 0 <= x <= 7 && 0 <= y <= 7
    ensures Bilinear(Reals(exp), x, y, f(11 + z, u, v), f(11 + z, u + 1, v), f(11 + z, u, v + 1), f(11 + z, u + 1, v + 1)) >= 0.0
    ensures f(11 + z, if x < 4 then u else u + 1, if y < 4 then v else v + 1) > 0.0 ==>
              Bilinear(Reals(exp), x, y, f(11 + z, u, v), f(11 + z, u + 1, v), f(11 + z, u, v + 1), f(11 + z, u + 1, v + 1)) > 0.0
  {
    assert BracketAt(f, 11, 0.0, 1.0, z, u, v) && BracketAt(f, 11, 0.0, 1.0, z, u + 1, v);
    assert BracketAt(f, 11, 0.0, 1.0, z, u, v + 1) && BracketAt(f, 11, 0.0, 1.0, z, u + 1, v + 1);
    BilinearPositive(exp, x, y, f(11 + z, u, v), f(11 + z, u + 1, v), f(11 + z, u, v + 1), f(11 + z, u + 1, v + 1));
  }

  /** A pixel is in its own neighbourhood: the interpolated weight is positive everywhere. */
  lemma WeightPositive(e: Kernels<real>, exp: real -> real, s: Stages<real>, i: int, j: int)
    requires RealKernels(e, exp) && e.side >= 8 && Lawful(e, s) && Within(s.gray, 0.0, 1.0) && s.gray(0, i, j) < 1.0
    ensures s.interpolated(1, i, j) > 0.0
  {
    var v := s.gray(0, i, j);
    BinIs(exp, v);
    var z, t := Level(Reals(exp), v), Between(Reals(exp), v);
    var b := e.bin(v);
    GridCounts(e, exp, s.gray, s.grid, i, j, b + 2);
    BluryCounts(e, exp, s, Nearest(i), Nearest(j), b);
    BluryBrackets(e, exp, 0.0, 1.0, s);
    SlicePositive(e, exp, v, s.blury, i, j, z, t, b);
    assert s.interpolated(1, i, j) == Slice(e, v, s.blury, 1, i, j);
  }

  predicate PositiveAt(f: Stage<real>, i: int, j: int) { f(1, i, j) > 0.0 }

  lemma AllWeightsPositive(e: Kernels<real>, exp: real -> real, s: Stages<real>)
    requires RealKernels(e, exp) && e.side >= 8 && Lawful(e, s) && forall i, j {:trigger s.gray(0, i, j)} :: 0.0 <= s.gray(0, i, j) < 1.0
    ensures forall i, j :: PositiveAt(s.interpolated, i, j)
  {
    forall i, j ensures PositiveAt(s.interpolated, i, j) {
      WeightPositive(e, exp, s, i, j);
    }
  }

  lemma SliceAtPositive(exp: real -> real, f: Stage<real>, z: int, t: real, x: int, y: int, u: int, w: int, b: int)
    requires PlaneBrackets(f, 11, 0.0, 1.0, z) && PlaneBrackets(f, 11, 0.0, 1.0, z + 1)
    requires 0.0 <= t < 1.0 && b == z + (if t < 0.5 then 0 else 1) && 0 <= x <= 7 && 0 <= y <= 7
    requires f(11 + b, if x < 4 then u else u + 1, if y < 4 then w else w + 1) > 0.0
    ensures SliceAt(Reals(exp), t, f, 11 + z, x, y, u, w) > 0.0
  {
    PlaneWeightPositive(exp, f, z, u, w, x, y);
    PlaneWeightPositive(exp, f, z + 1, u, w, x, y);
    var k := 11 + z;
    var p := Bilinear(Reals(exp), x, y, f(k, u, w), f(k, u + 1, w), f(k, u, w + 1), f(k, u + 1, w + 1));
    var q := Bilinear(Reals(exp), x, y, f(k + 1, u, w), f(k + 1, u + 1, w), f(k + 1, u, w + 1), f(k + 1, u + 1, w + 1));
    LerpPositive(exp, t, p, q);
  }

  lemma SlicePositive(e: Kernels<real>, exp: real -> real, v: real, f: Stage<real>, i: int, j: int, z: int, t: real, b: int)
    requires RealKernels(e, exp) && Brackets(f, 11, 0.0, 1.0) && z == Level(Reals(exp), v) && t == BilateralSpec.Between(Reals(exp), v)
    requires 0 <= z <= 9 && 0.0 <= t < 1.0 && b == z + (if t < 0.5 then 0 else 1) && f(11 + b, Nearest(i), Nearest(j)) > 0.0
    ensures Slice(e, v, f, 1, i, j) > 0.0
  {
    NearestIs(i);
    NearestIs(j);
    SliceAtPositive(exp, f, z, t, i % 8, j % 8, i / 8, j / 8, b);
    SliceIs(e, exp, v, f, 1, i, j, 11 + z);
  }

  lemma NormalIs(e: Kernels<real>, exp: real -> real, sum: real, weight: real, v: real)
    requires RealKernels(e, exp) && weight > 0.0
    ensures e.normal(sum, weight, v) == sum / weight
  {
  }

  lemma QuotientTimes(sum: real, weight: real, q: real)
    requires weight > 0.0 && q == sum / weight
    ensures q * weight == sum
  {
  }

  /** So the output is the quotient, never the pixel itself for want of neighbours. */
  lemma FilteredIsQuotient(e: Kernels<real>, exp: real -> real, f: Stage<real>, gray: Stage<real>, g: Stage<real>, i: int, j: int)
    requires RealKernels(e, exp) && NormalLaw(e, f, gray, g) && f(1, i, j) > 0.0
    ensures g(0, i, j) * f(1, i, j) == f(0, i, j)
  {
    NormalIs(e, exp, f(0, i, j), f(1, i, j), gray(0, i, j));
    QuotientTimes(f(0, i, j), f(1, i, j), g(0, i, j));
  }

  // Edges are kept.

  /** Only grey values near a pixel's take part in its output: it changes by at most 0.35. */
  lemma EdgesKept(e: Kernels<real>, exp: real -> real, s: Stages<real>, i: int, j: int)
    requires RealKernels(e, exp) && Lawful(e, s) && (forall i, j {:trigger s.gray(0, i, j)} :: 0.0 <= s.gray(0, i, j) < 1.0)
    ensures -0.35 <= s.filtered(0, i, j) - s.gray(0, i, j) <= 0.35
  {
    var v := s.gray(0, i, j);
    BinIs(exp, v);
    var z := Level(Reals(exp), v);
    var m, M := (z as real - 2.5) / 10.0, (z as real + 3.5) / 10.0;
    forall n | z <= n <= z + 5 ensures PlaneBrackets(s.grid, 15, m, M, n) {
      BinBounds(e, exp, s.gray, n, m, M);
      GridPlane(e, exp, m, M, s.gray, s.grid, n);
    }
    BluryPlane(e, exp, m, M, s, z);
    BluryPlane(e, exp, m, M, s, z + 1);
    var w, sum := SliceBracket(e, exp, m, M, v, s.blury, i, j);
    assert m <= v <= M && M - v <= 0.35 && v - m <= 0.35;
    NormalRange(e, exp, m, M, w, sum, v);
    assert s.filtered(0, i, j) == e.normal(sum, w, v);
  }

  lemma BinBounds(e: Kernels<real>, exp: real -> real, f: Stage<real>, n: int, m: real, M: real)
    requires RealKernels(e, exp) && (forall i, j {:trigger f(0, i, j)} :: 0.0 <= f(0, i, j) < 1.0)
    requires m <= (n as real - 2.5) / 10.0 && (n as real - 1.5) / 10.0 <= M
    ensures BinWithin(e, f, n, m, M)
  {
    forall i, j | e.bin(f(0, i, j)) + 2 == n ensures m <= f(0, i, j) <= M {
      BinOf(exp, f(0, i, j));
    }
  }

  lemma BinOf(exp: real -> real, v: real)
    requires 0.0 <= v < 1.0
    ensures var b := SourceKernels(Reals(exp)).bin(v); b as real - 0.5 <= 10.0 * v < b as real + 0.5
  {
  }

  // Inside one bin.

  /** the sum of n pixels from (i, j) on */
  function RowSum(f: Stage<real>, i: int, j: int, n: nat): real {
    if n == 0 then 0.0 else RowSum(f, i, j, n - 1) + f(0, i, j + n - 1)
  }

  function BlockSum(f: Stage<real>, i: int, j: int, m: nat, n: nat): real {
    if m == 0 then 0.0 else BlockSum(f, i, j, m - 1, n) + RowSum(f, i + m - 1, j, n)
  }

  /** the mean of the n x n pixels from (8 u - 4, 8 v - 4) on */
  function CellMean(f: Stage<real>, n: nat, u: int, v: int): real
    requires n > 0
  {
    BlockSum(f, -4 + 8 * u, -4 + 8 * v, n, n) / (n * n) as real
  }

  /** the binomial mean of five */
  function Smooth(a: real, b: real, c: real, d: real, f: real): real { (a + 4.0 * b + 6.0 * c + 4.0 * d + f) / 16.0 }

  type Grid = (int, int) -> real

  function RowMean(h: Grid, u: int, v: int): real { Smooth(h(u - 2, v), h(u - 1, v), h(u, v), h(u + 1, v), h(u + 2, v)) }

  function ColMean(h: Grid, u: int, v: int): real { Smooth(h(u, v - 2), h(u, v - 1), h(u, v), h(u, v + 1), h(u, v + 2)) }

  function SmoothRows(h: Grid): Grid { (u, v) => RowMean(h, u, v) }

  function SmoothCols(h: Grid): Grid { (u, v) => ColMean(h, u, v) }

  /** the cell means, smoothed along rows and columns */
  function SmoothMean(f: Stage<real>, n: nat): Grid
    requires n > 0
  {
    SmoothCols(SmoothRows(CellMeans(f, n)))
  }

  function CellMeans(f: Stage<real>, n: nat): Grid
    requires n > 0
  {
    (u, v) => CellMean(f, n, u, v)
  }

  /** between four values, x / 8 and y / 8 of the way */
  function Amid(a00: real, a10: real, a01: real, a11: real, x: int, y: int): real {
    ((8 - y) as real * ((8 - x) as real * a00 + x as real * a10) + y as real * ((8 - x) as real * a01 + x as real * a11)) / 64.0
  }

  function AmidGrid(h: Grid, i: int, j: int): real {
    Amid(h(i / 8, j / 8), h(i / 8 + 1, j / 8), h(i / 8, j / 8 + 1), h(i / 8 + 1, j / 8 + 1), i % 8, j % 8)
  }

  /** All grey values are in bin b. */
  ghost predicate OneBin(f: Stage<real>, b: int) {
    forall i, j {:trigger f(0, i, j)} :: 0.0 <= f(0, i, j) < 1.0 && b as real - 0.5 <= 10.0 * f(0, i, j) < b as real + 0.5
  }

  lemma BinAlone(exp: real -> real, v: real, b: int)
    requires 0.0 <= v < 1.0 && b as real - 0.5 <= 10.0 * v < b as real + 0.5
    ensures SourceKernels(Reals(exp)).bin(v) == b && 0 <= b <= 10
  {
    BinOf(exp, v);
  }

  lemma AccumulateOneBin(e: Kernels<real>, exp: real -> real, bin: int, z: int, w: real, v: real)
    requires RealKernels(e, exp) && 0.0 <= v < 1.0 && bin as real - 0.5 <= 10.0 * v < bin as real + 0.5
    ensures Accumulate(e, 1, z, w, v) == if z == bin + 2 then w + 1.0 else w
    ensures Accumulate(e, 0, z, w, v) == if z == bin + 2 then w + v else w
  {
    BinAlone(exp, v, bin);
  }

  /** The histogram has all samples in that bin. */
  lemma {:induction false} WeightsOneBin(e: Kernels<real>, exp: real -> real, f: Stage<real>, bin: int, z: int, i: int, j: int, a: nat, b: nat)
    requires RealKernels(e, exp) && OneBin(f, bin)
    ensures Histogram(e, f, 1, z, i, j, a, b) == if z == bin + 2 then (a * e.side + b) as real else 0.0
    decreases a, b
  {
    if b > 0 {
      WeightsOneBin(e, exp, f, bin, z, i, j, a, b - 1);
      AccumulateOneBin(e, exp, bin, z, Histogram(e, f, 1, z, i, j, a, b - 1), f(0, -4 + a + 8 * i, -4 + 8 * j + b - 1));
    } else if a > 0 {
      WeightsOneBin(e, exp, f, bin, z, i, j, a - 1, e.side);
      assert (a - 1) * e.side + e.side == a * e.side;
    }
  }

  lemma {:induction false} SumsOneBin(e: Kernels<real>, exp: real -> real, f: Stage<real>, bin: int, z: int, i: int, j: int, a: nat, b: nat)
    requires RealKernels(e, exp) && OneBin(f, bin)
    ensures Histogram(e, f, 0, z, i, j, a, b) ==
            if z == bin + 2 then BlockSum(f, -4 + 8 * i, -4 + 8 * j, a, e.side) + RowSum(f, -4 + a + 8 * i, -4 + 8 * j, b) else 0.0
    decreases a, b
  {
    if b > 0 {
      SumsOneBin(e, exp, f, bin, z, i, j, a, b - 1);
      AccumulateOneBin(e, exp, bin, z, Histogram(e, f, 0, z, i, j, a, b - 1), f(0, -4 + a + 8 * i, -4 + 8 * j + b - 1));
    } else if a > 0 {
      SumsOneBin(e, exp, f, bin, z, i, j, a - 1, e.side);
      assert -4 + 8 * i + a - 1 == -4 + (a - 1) + 8 * i;
    }
  }

  /** m is the mean of a sum with that weight. */
  predicate Share(weight: real, sum: real, m: real) {
    sum == weight * m
  }

  predicate MeanAt(f: Stage<real>, n: nat, k: int, q: real, h: Grid, i: int, j: int) {
    f(n + k, i, j) == q && Share(q, f(k, i, j), h(i, j))
  }

  /** Plane k has weight q in every cell, and h is its mean. */
  ghost predicate Means(f: Stage<real>, n: nat, k: int, q: real, h: Grid) {
    forall i, j :: MeanAt(f, n, k, q, h, i, j)
  }

  function BinWeight(n: nat, z: int, b: int): real { if z == b + 2 then (n * n) as real else 0.0 }

  lemma GridMeans(e: Kernels<real>, exp: real -> real, f: Stage<real>, g: Stage<real>, b: int, h: Grid, z: int)
    requires RealKernels(e, exp) && e.side > 0 && GridLaw(e, f, g) && OneBin(f, b) && 0 <= z <= 14
    requires forall u, v {:trigger h(u, v)} :: h(u, v) == CellMean(f, e.side, u, v)
    ensures Means(g, 15, z, BinWeight(e.side, z, b), h)
  {
    var n := e.side;
    forall u, v ensures MeanAt(g, 15, z, BinWeight(n, z, b), h, u, v) {
      WeightsOneBin(e, exp, f, b, z, u, v, n, 0);
      SumsOneBin(e, exp, f, b, z, u, v, n, 0);
      assert Plane(0, z) == z && Plane(1, z) == 15 + z;
      assert g(Plane(0, z), u, v) == Histogram(e, f, 0, z, u, v, n, 0) && g(Plane(1, z), u, v) == Histogram(e, f, 1, z, u, v, n, 0);
      QuotientTimes(BlockSum(f, -4 + 8 * u, -4 + 8 * v, n, n), (n * n) as real, h(u, v));
    }
  }

  /** Five sums with one mean: so has their blur. */
  lemma ShareBlurred(exp: real -> real, x: real, w0: real, w1: real, w2: real, w3: real, w4: real, a: real, b: real, c: real, d: real, f: real)
    returns (w: real, s: real)
    requires Share(w0, a, x) && Share(w1, b, x) && Share(w2, c, x) && Share(w3, d, x) && Share(w4, f, x)
    ensures w == Blur5(Reals(exp), w0, w1, w2, w3, w4) && s == Blur5(Reals(exp), a, b, c, d, f) && Share(w, s, x)
  {
    w, s := w0 + 4.0 * w1 + 6.0 * w2 + 4.0 * w3 + w4, a + 4.0 * b + 6.0 * c + 4.0 * d + f;
    assert w * x == w0 * x + 4.0 * (w1 * x) + 6.0 * (w2 * x) + 4.0 * (w3 * x) + w4 * x;
  }

  /** Five sums of one weight: the blur's mean is the smoothed one. */
  lemma ShareSmoothed(exp: real -> real, q: real, a: real, b: real, c: real, d: real, f: real, m0: real, m1: real, m2: real, m3: real, m4: real)
    returns (w: real, s: real, m: real)
    requires Share(q, a, m0) && Share(q, b, m1) && Share(q, c, m2) && Share(q, d, m3) && Share(q, f, m4)
    ensures w == Blur5(Reals(exp), q, q, q, q, q) && s == Blur5(Reals(exp), a, b, c, d, f) && m == Smooth(m0, m1, m2, m3, m4)
    ensures Share(w, s, m)
  {
    var p := m0 + 4.0 * m1 + 6.0 * m2 + 4.0 * m3 + m4;
    assert q * p == q * m0 + 4.0 * (q * m1) + 6.0 * (q * m2) + 4.0 * (q * m3) + q * m4;
    w, s, m := 16.0 * q, q * p, p / 16.0;
    assert (16.0 * q) * (p / 16.0) == q * p;
  }

  lemma BlurZMeans(e: Kernels<real>, exp: real -> real, f: Stage<real>, g: Stage<real>, k: int, q: int -> real, h: Grid) returns (p: real)
    requires RealKernels(e, exp) && BlurZLaw(e, f, g) && 0 <= k <= 10 && forall z {:trigger q(z)} :: k <= z <= k + 4 ==> Means(f, 15, z, q(z), h)
    ensures Means(g, 11, k, p, h)
  {
    p := Blur5(Reals(exp), q(k), q(k + 1), q(k + 2), q(k + 3), q(k + 4));
    forall u, v ensures MeanAt(g, 11, k, p, h, u, v) {
      assert MeanAt(f, 15, k, q(k), h, u, v) && MeanAt(f, 15, k + 1, q(k + 1), h, u, v) && MeanAt(f, 15, k + 2, q(k + 2), h, u, v);
      assert MeanAt(f, 15, k + 3, q(k + 3), h, u, v) && MeanAt(f, 15, k + 4, q(k + 4), h, u, v);
      var w, s := ShareBlurred(exp, h(u, v), q(k), q(k + 1), q(k + 2), q(k + 3), q(k + 4),
                               f(k, u, v), f(k + 1, u, v), f(k + 2, u, v), f(k + 3, u, v), f(k + 4, u, v));
      assert Below(k) == k && Below(11 + k) == 15 + k;
    }
  }

  lemma BlurRowsMeans(e: Kernels<real>, exp: real -> real, f: Stage<real>, g: Stage<real>, k: int, q: real, h: Grid) returns (p: real, h': Grid)
    requires RealKernels(e, exp) && BlurRowsLaw(e, f, g) && Means(f, 11, k, q, h)
    ensures h' == SmoothRows(h) && Means(g, 11, k, p, h')
  {
    p, h' := Blur5(Reals(exp), q, q, q, q, q), SmoothRows(h);
    forall u, v ensures MeanAt(g, 11, k, p, h', u, v) {
      assert MeanAt(f, 11, k, q, h, u - 2, v) && MeanAt(f, 11, k, q, h, u - 1, v) && MeanAt(f, 11, k, q, h, u, v);
      assert MeanAt(f, 11, k, q, h, u + 1, v) && MeanAt(f, 11, k, q, h, u + 2, v);
      var w, s, m := ShareSmoothed(exp, q, f(k, u - 2, v), f(k, u - 1, v), f(k, u, v), f(k, u + 1, v), f(k, u + 2, v),
                                   h(u - 2, v), h(u - 1, v), h(u, v), h(u + 1, v), h(u + 2, v));
    }
  }

  lemma BlurColsMeans(e: Kernels<real>, exp: real -> real, f: Stage<real>, g: Stage<real>, k: int, q: real, h: Grid) returns (p: real, h': Grid)
    requires RealKernels(e, exp) && BlurColsLaw(e, f, g) && Means(f, 11, k, q, h)
    ensures h' == SmoothCols(h) && Means(g, 11, k, p, h')
  {
    p, h' := Blur5(Reals(exp), q, q, q, q, q), SmoothCols(h);
    forall u, v ensures MeanAt(g, 11, k, p, h', u, v) {
      assert MeanAt(f, 11, k, q, h, u, v - 2) && MeanAt(f, 11, k, q, h, u, v - 1) && MeanAt(f, 11, k, q, h, u, v);
      assert MeanAt(f, 11, k, q, h, u, v + 1) && MeanAt(f, 11, k, q, h, u, v + 2);
      var w, s, m := ShareSmoothed(exp, q, f(k, u, v - 2), f(k, u, v - 1), f(k, u, v), f(k, u, v + 1), f(k, u, v + 2),
                                   h(u, v - 2), h(u, v - 1), h(u, v), h(u, v + 1), h(u, v + 2));
    }
  }

  /** Every blurred plane has the same means, whatever its weight. */
  lemma BluryMeans(e: Kernels<real>, exp: real -> real, s: Stages<real>, b: int, k: int) returns (q: real)
    requires RealKernels(e, exp) && e.side > 0 && GridLaw(e, s.gray, s.grid) && BlurZLaw(e, s.grid, s.blurz)
    requires BlurRowsLaw(e, s.blurz, s.blurx) && BlurColsLaw(e, s.blurx, s.blury) && OneBin(s.gray, b) && 0 <= k <= 10
    ensures Means(s.blury, 11, k, q, SmoothMean(s.gray, e.side))
  {
    var h: Grid := CellMeans(s.gray, e.side);
    var p := BlurzMeans(e, exp, s.gray, s.grid, s.blurz, b, k, h);
    var p', h' := BlurRowsMeans(e, exp, s.blurz, s.blurx, k, p, h);
    var h'';
    q, h'' := BlurColsMeans(e, exp, s.blurx, s.blury, k, p', h');
  }

  lemma BlurzMeans(e: Kernels<real>, exp: real -> real, f: Stage<real>, grid: Stage<real>, g: Stage<real>, b: int, k: int, h: Grid) returns (p: real)
    requires RealKernels(e, exp) && e.side > 0 && GridLaw(e, f, grid) && BlurZLaw(e, grid, g) && OneBin(f, b) && 0 <= k <= 10
    requires h == CellMeans(f, e.side)
    ensures Means(g, 11, k, p, h)
  {
    var n := e.side;
    var w := z => BinWeight(n, z, b);
    forall z {:trigger w(z)} | k <= z <= k + 4 ensures Means(grid, 15, z, w(z), h) {
      GridMeans(e, exp, f, grid, b, h, z);
    }
    p := BlurZMeans(e, exp, grid, g, k, w, h);
  }

  lemma ShareLerp(exp: real -> real, t: real, q: real, s1: real, m1: real, s2: real, m2: real) returns (s: real, m: real)
    requires Share(q, s1, m1) && Share(q, s2, m2)
    ensures s == Lerp(Reals(exp), t, s1, s2) && m == Lerp(Reals(exp), t, m1, m2) && Share(q, s, m)
    ensures Lerp(Reals(exp), t, q, q) == q
  {
    var c := m2 - m1;
    m := m1 + t * c;
    s := s1 + t * (s2 - s1);
    assert s2 - s1 == q * c;
    assert q * m == q * m1 + t * (q * c);
  }

  lemma LerpEighth(exp: real -> real, n: int, a: real, b: real)
    ensures 8.0 * Lerp(Reals(exp), Eighth(Reals(exp), n), a, b) == (8 - n) as real * a + n as real * b
  {
    var t, c := n as real / 8.0, b - a;
    assert Eighth(Reals(exp), n) == t && 8.0 * t == n as real;
    assert 8.0 * (t * c) == (8.0 * t) * c == n as real * b - n as real * a;
  }

  lemma BilinearIs(exp: real -> real, x: int, y: int, a: real, b: real, c: real, d: real)
    ensures Bilinear(Reals(exp), x, y, a, b, c, d) == Amid(a, b, c, d, x, y)
  {
    var ar := Reals(exp);
    var p, q := Lerp(ar, Eighth(ar, x), a, b), Lerp(ar, Eighth(ar, x), c, d);
    LerpEighth(exp, x, a, b);
    LerpEighth(exp, x, c, d);
    LerpEighth(exp, y, p, q);
    var p', q' := (8 - x) as real * a + x as real * b, (8 - x) as real * c + x as real * d;
    assert (8 - y) as real * p' == 8.0 * ((8 - y) as real * p) && y as real * q' == 8.0 * (y as real * q);
  }

  /** the bilinear mean of plane k */
  lemma PlaneMean(exp: real -> real, f: Stage<real>, k: int, q: real, h: Grid, x: int, y: int, u: int, v: int) returns (s: real, m: real)
    requires Means(f, 11, k, q, h)
    ensures m == Amid(h(u, v), h(u + 1, v), h(u, v + 1), h(u + 1, v + 1), x, y) && Share(q, s, m)
    ensures Bilinear(Reals(exp), x, y, f(11 + k, u, v), f(11 + k, u + 1, v), f(11 + k, u, v + 1), f(11 + k, u + 1, v + 1)) == q
    ensures s == Bilinear(Reals(exp), x, y, f(k, u, v), f(k, u + 1, v), f(k, u, v + 1), f(k, u + 1, v + 1))
  {
    assert MeanAt(f, 11, k, q, h, u, v) && MeanAt(f, 11, k, q, h, u + 1, v) && MeanAt(f, 11, k, q, h, u, v + 1) && MeanAt(f, 11, k, q, h, u + 1, v + 1);
    var t, t' := Eighth(Reals(exp), x), Eighth(Reals(exp), y);
    var s1, m1 := ShareLerp(exp, t, q, f(k, u, v), h(u, v), f(k, u + 1, v), h(u + 1, v));
    var s2, m2 := ShareLerp(exp, t, q, f(k, u, v + 1), h(u, v + 1), f(k, u + 1, v + 1), h(u + 1, v + 1));
    s, m := ShareLerp(exp, t', q, s1, m1, s2, m2);
    BilinearIs(exp, x, y, h(u, v), h(u + 1, v), h(u, v + 1), h(u + 1, v + 1));
  }

  /** Two sums with one mean: so has what lies between. */
  lemma ShareBetween(exp: real -> real, t: real, w1: real, s1: real, w2: real, s2: real, m: real) returns (w: real, s: real)
    requires Share(w1, s1, m) && Share(w2, s2, m)
    ensures w == Lerp(Reals(exp), t, w1, w2) && s == Lerp(Reals(exp), t, s1, s2) && Share(w, s, m)
  {
    var c := w2 - w1;
    w := w1 + t * c;
    s := s1 + t * (s2 - s1);
    assert s2 - s1 == c * m;
    assert w * m == w1 * m + t * (c * m);
  }

  lemma SliceAtMean(exp: real -> real, t: real, f: Stage<real>, z: int, q0: real, q1: real, h: Grid, x: int, y: int, u: int, v: int)
    returns (w: real, s: real, m: real)
    requires Means(f, 11, z, q0, h) && Means(f, 11, z + 1, q1, h)
    ensures w == SliceAt(Reals(exp), t, f, 11 + z, x, y, u, v) && s == SliceAt(Reals(exp), t, f, z, x, y, u, v)
    ensures m == Amid(h(u, v), h(u + 1, v), h(u, v + 1), h(u + 1, v + 1), x, y) && Share(w, s, m)
  {
    var s0, m0 := PlaneMean(exp, f, z, q0, h, x, y, u, v);
    var s1, m1 := PlaneMean(exp, f, z + 1, q1, h, x, y, u, v);
    m := m0;
    w, s := ShareBetween(exp, t, q0, s0, q1, s1, m);
  }

  lemma SliceMean(e: Kernels<real>, exp: real -> real, v: real, f: Stage<real>, q0: real, q1: real, h: Grid, i: int, j: int)
    returns (w: real, s: real, m: real)
    requires RealKernels(e, exp) && 0.0 <= v < 1.0
    requires Means(f, 11, Level(Reals(exp), v), q0, h) && Means(f, 11, Level(Reals(exp), v) + 1, q1, h)
    ensures w == Slice(e, v, f, 1, i, j) && s == Slice(e, v, f, 0, i, j) && m == AmidGrid(h, i, j) && Share(w, s, m)
  {
    var t, z, x, y := SlicePlace(exp, v, i, j);
    w, s, m := SliceAtMean(exp, t, f, z, q0, q1, h, x, y, i / 8, j / 8);
    SliceIs(e, exp, v, f, 0, i, j, z);
    SliceIs(e, exp, v, f, 1, i, j, 11 + z);
  }

  lemma QuotientOf(w: real, s: real, m: real)
    requires w > 0.0 && Share(w, s, m)
    ensures s / w == m
  {
  }

  lemma NormalMean(e: Kernels<real>, exp: real -> real, w: real, s: real, m: real, v: real)
    requires RealKernels(e, exp) && w > 0.0 && Share(w, s, m)
    ensures e.normal(s, w, v) == m
  {
    QuotientOf(w, s, m);
    NormalIs(e, exp, s, w, v);
  }

  lemma MeanFiltered(e: Kernels<real>, exp: real -> real, gray: Stage<real>, blury: Stage<real>, interpolated: Stage<real>, filtered: Stage<real>,
                     q0: real, q1: real, h: Grid, i: int, j: int)
    requires RealKernels(e, exp) && SliceLaw(e, gray, blury, interpolated) && NormalLaw(e, interpolated, gray, filtered)
    requires 0.0 <= gray(0, i, j) < 1.0 && interpolated(1, i, j) > 0.0
    requires Means(blury, 11, Level(Reals(exp), gray(0, i, j)), q0, h) && Means(blury, 11, Level(Reals(exp), gray(0, i, j)) + 1, q1, h)
    ensures filtered(0, i, j) == AmidGrid(h, i, j)
  {
    var v := gray(0, i, j);
    var w, sum, m := SliceMean(e, exp, v, blury, q0, q1, h, i, j);
    NormalMean(e, exp, w, sum, m, v);
    assert interpolated(1, i, j) == w && interpolated(0, i, j) == sum;
  }

  predicate AmidAt(filtered: Stage<real>, h: Grid, i: int, j: int) { filtered(0, i, j) == AmidGrid(h, i, j) }

  /** Inside one bin the output is the cell means, smoothed and interpolated. */
  lemma OneBinFiltered(e: Kernels<real>, exp: real -> real, s: Stages<real>, b: int)
    requires RealKernels(e, exp) && e.side >= 8 && Lawful(e, s) && OneBin(s.gray, b)
    ensures forall i, j :: AmidAt(s.filtered, SmoothMean(s.gray, e.side), i, j)
  {
    var h := SmoothMean(s.gray, e.side);
    AllWeightsPositive(e, exp, s);
    forall k | 0 <= k <= 10 ensures HasMean(s.blury, k, h) {
      var q := BluryMeans(e, exp, s, b, k);
    }
    AllMeansFiltered(e, exp, s.gray, s.blury, s.interpolated, s.filtered, h);
  }

  ghost predicate HasMean(f: Stage<real>, k: int, h: Grid) {
    exists q :: Means(f, 11, k, q, h)
  }

  lemma AllMeansFiltered(e: Kernels<real>, exp: real -> real, gray: Stage<real>, blury: Stage<real>, interpolated: Stage<real>,
                         filtered: Stage<real>, h: Grid)
    requires RealKernels(e, exp) && SliceLaw(e, gray, blury, interpolated) && NormalLaw(e, interpolated, gray, filtered)
    requires forall i, j {:trigger gray(0, i, j)} :: 0.0 <= gray(0, i, j) < 1.0
    requires forall i, j :: PositiveAt(interpolated, i, j)
    requires forall k :: 0 <= k <= 10 ==> HasMean(blury, k, h)
    ensures forall i, j :: AmidAt(filtered, h, i, j)
  {
    forall i, j ensures AmidAt(filtered, h, i, j) {
      BinIs(exp, gray(0, i, j));
      var z := Level(Reals(exp), gray(0, i, j));
      assert HasMean(blury, z, h) && HasMean(blury, z + 1, h);
      var q0 :| Means(blury, 11, z, q0, h);
      var q1 :| Means(blury, 11, z + 1, q1, h);
      assert PositiveAt(interpolated, i, j);
      MeanFiltered(e, exp, gray, blury, interpolated, filtered, q0, q1, h, i, j);
    }
  }

  lemma SmoothSame(h: Grid, c: real, i: int, j: int)
    requires forall u, v {:trigger h(u, v)} :: h(u, v) == c
    ensures AmidGrid(SmoothCols(SmoothRows(h)), i, j) == c
  {
    var r := SmoothRows(h);
    forall u, v ensures r(u, v) == c {
    }
    var g := SmoothCols(r);
    forall u, v ensures g(u, v) == c {
    }
    AmidSame(c, i % 8, j % 8);
  }

  lemma AmidSame(c: real, x: int, y: int)
    ensures Amid(c, c, c, c, x, y) == c
  {
    var p := (8 - x) as real * c + x as real * c;
    assert p == 8.0 * c;
    assert (8 - y) as real * p + y as real * p == 8.0 * p;
  }

  /** If all cells have the same mean, that is the output. */
  lemma MeanKept(e: Kernels<real>, exp: real -> real, s: Stages<real>, b: int, c: real)
    requires RealKernels(e, exp) && e.side >= 8 && Lawful(e, s) && OneBin(s.gray, b) && forall u, v :: CellMean(s.gray, e.side, u, v) == c
    ensures forall i, j :: ValueAt(s.filtered, c, i, j)
  {
    var h := SmoothMean(s.gray, e.side);
    OneBinFiltered(e, exp, s, b);
    AllSame(s.filtered, h, CellMeans(s.gray, e.side), c);
  }

  predicate ValueAt(f: Stage<real>, c: real, i: int, j: int) { f(0, i, j) == c }

  lemma AllSame(f: Stage<real>, h: Grid, means: Grid, c: real)
    requires h == SmoothCols(SmoothRows(means)) && (forall u, v {:trigger means(u, v)} :: means(u, v) == c) && forall i, j :: AmidAt(f, h, i, j)
    ensures forall i, j :: ValueAt(f, c, i, j)
  {
    forall i, j ensures ValueAt(f, c, i, j) {
      assert AmidAt(f, h, i, j);
      SmoothSame(means, c, i, j);
    }
  }

  // The tiled code.

  lemma SourceSide(exp: real -> real)
    ensures SourceKernels(Reals(exp)).side == 9 && RealKernels(SourceKernels(Reals(exp)), exp)
  {
  }

  ghost predicate UnitImage(f: Stage<real>) {
    forall i, j {:trigger f(0, i, j)} :: 0.0 <= f(0, i, j) < 1.0
  }

  lemma UnitStages(e: Kernels<real>, exp: real -> real, R: int, C: int, f: Stage<real>) returns (s: Stages<real>)
    requires e == SourceKernels(Reals(exp)) && UnitImage(f)
    ensures Lawful(e, s) && s.gray == f && Acceptable(e, s, R, C)
  {
    s := MakeStages(e, f);
    forall i, j ensures 0 <= e.bin(f(0, i, j)) <= 12 && 0 <= e.level(f(0, i, j)) <= 9 {
      LevelRange(exp, f(0, i, j));
    }
  }

  predicate NearAt(f: Stage<real>, g: Stage<real>, i: int, j: int) { -0.35 <= f(0, i, j) - g(0, i, j) <= 0.35 }

  lemma AllEdgesKept(e: Kernels<real>, exp: real -> real, s: Stages<real>)
    requires RealKernels(e, exp) && Lawful(e, s) && UnitImage(s.gray)
    ensures forall i, j :: NearAt(s.filtered, s.gray, i, j)
  {
    forall i, j ensures NearAt(s.filtered, s.gray, i, j) {
      EdgesKept(e, exp, s, i, j);
    }
  }

  ghost predicate SameMeans(f: Stage<real>, n: nat, c: real)
    requires n > 0
  {
    forall u, v :: CellMean(f, n, u, v) == c
  }

  /** No pixel moves by more than 0.35; an image within one bin is smoothed; it becomes flat if its cells have one mean. */
  ghost predicate Smooths(f: Stage<real>, out: Stage<real>, n: nat)
    requires n > 0
  {
    && (forall i, j :: NearAt(out, f, i, j))
    && (forall b :: OneBin(f, b) ==> forall i, j :: AmidAt(out, SmoothMean(f, n), i, j))
    && (forall b, c :: OneBin(f, b) && SameMeans(f, n, c) ==> forall i, j :: ValueAt(out, c, i, j))
  }

  lemma FilterSmooths(e: Kernels<real>, exp: real -> real, s: Stages<real>)
    requires RealKernels(e, exp) && e.side >= 8 && Lawful(e, s) && UnitImage(s.gray)
    ensures Smooths(s.gray, s.filtered, e.side)
  {
    AllEdgesKept(e, exp, s);
    forall b | OneBin(s.gray, b) ensures forall i, j :: AmidAt(s.filtered, SmoothMean(s.gray, e.side), i, j) {
      OneBinFiltered(e, exp, s, b);
    }
    forall b, c | OneBin(s.gray, b) && SameMeans(s.gray, e.side, c) ensures forall i, j :: ValueAt(s.filtered, c, i, j) {
      MeanKept(e, exp, s, b, c);
    }
  }

  /** So the tiled code does. `pixels` is the image, continued beyond its borders in any way. */
  method TiledSmooths(R: int, C: int, gray: Window<real>, exp: real -> real, stray: (int, int, int) -> real, ghost pixels: Stage<real>)
    returns (filtered: Window<real>, ghost out: Stage<real>)
    requires R >= 57 && C >= 57 && Known(gray, 1, Whole(R, C), pixels) && UnitImage(pixels)
    ensures CanStore(filtered, 1, Image(R, C)) && Known(filtered, 1, Image(R, C), out)
    ensures SourceKernels(Reals(exp)).side == 9 && Smooths(pixels, out, SourceKernels(Reals(exp)).side)
  {
    var e := SourceKernels(Reals(exp));
    SourceSide(exp);
    ghost var s := UnitStages(e, exp, R, C, pixels);
    FilterSmooths(e, exp, s);
    filtered := Tiled(e, R, C, gray, stray, s);
    out := s.filtered;
  }
}
