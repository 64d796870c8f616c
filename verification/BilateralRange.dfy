/** Over the reals the bilateral filter keeps the range of its input: m * weight <= sum <= M * weight survives the
    histogram, the three blurs and the trilinear slice, and an empty neighbourhood gives the pixel back. */
module BilateralRange {
  import opened Arithmetic
  import opened Buffers
  import opened BilateralSpec
  import opened BilateralEqual

  /** sum is a weight-fold sum of values in [m, M] */
  predicate Bracket(m: real, M: real, weight: real, sum: real) {
    0.0 <= weight && m * weight <= sum <= M * weight
  }

  lemma BracketSum(m: real, M: real, w1: real, s1: real, w2: real, s2: real) returns (w: real, s: real)
    requires Bracket(m, M, w1, s1) && Bracket(m, M, w2, s2)
    ensures w == w1 + w2 && s == s1 + s2 && Bracket(m, M, w, s)
  {
    w, s := w1 + w2, s1 + s2;
    assert m * w == m * w1 + m * w2 && M * w == M * w1 + M * w2;
  }

  lemma Monotone(t: real, a: real, b: real)
    requires 0.0 <= t && a <= b
    ensures t * a <= t * b
  {
  }

  lemma BracketScale(m: real, M: real, t: real, w1: real, s1: real) returns (w: real, s: real)
    requires Bracket(m, M, w1, s1) && 0.0 <= t
    ensures w == t * w1 && s == t * s1 && Bracket(m, M, w, s)
  {
    w, s := t * w1, t * s1;
    Monotone(t, 0.0, w1);
    Monotone(t, m * w1, s1);
    Monotone(t, s1, M * w1);
    assert m * w == t * (m * w1) && M * w == t * (M * w1);
  }

  lemma LerpIs(exp: real -> real, t: real, a: real, b: real, a': real, b': real)
    requires a' == (1.0 - t) * a && b' == t * b
    ensures Lerp(Reals(exp), t, a, b) == a' + b'
  {
    assert t * (b - a) == t * b - t * a && (1.0 - t) * a == a - t * a;
  }

  lemma BracketLerp(exp: real -> real, m: real, M: real, t: real, w1: real, s1: real, w2: real, s2: real) returns (w: real, s: real)
    requires Bracket(m, M, w1, s1) && Bracket(m, M, w2, s2) && 0.0 <= t <= 1.0
    ensures w == Lerp(Reals(exp), t, w1, w2) && s == Lerp(Reals(exp), t, s1, s2) && Bracket(m, M, w, s)
  {
    var u1, v1 := BracketScale(m, M, 1.0 - t, w1, s1);
    var u2, v2 := BracketScale(m, M, t, w2, s2);
    w, s := BracketSum(m, M, u1, v1, u2, v2);
    LerpIs(exp, t, w1, w2, u1, u2);
    LerpIs(exp, t, s1, s2, v1, v2);
  }

  lemma BracketBlur(exp: real -> real, m: real, M: real, w: seq<real>, s: seq<real>)
    requires |w| == |s| == 5 && forall n :: 0 <= n < 5 ==> Bracket(m, M, w[n], s[n])
    ensures Bracket(m, M, Blur5(Reals(exp), w[0], w[1], w[2], w[3], w[4]), Blur5(Reals(exp), s[0], s[1], s[2], s[3], s[4]))
  {
    var u1, v1 := BracketScale(m, M, 4.0, w[1], s[1]);
    var u2, v2 := BracketScale(m, M, 6.0, w[2], s[2]);
    var u3, v3 := BracketScale(m, M, 4.0, w[3], s[3]);
    var w1, s1 := BracketSum(m, M, w[0], s[0], u1, v1);
    var w2, s2 := BracketSum(m, M, w1, s1, u2, v2);
    var w3, s3 := BracketSum(m, M, w2, s2, u3, v3);
    var w4, s4 := BracketSum(m, M, w3, s3, w[4], s[4]);
  }

  /** the source's expressions; how many pixels a cell takes in does not matter */
  ghost predicate RealKernels(e: Kernels<real>, exp: real -> real) {
    e == SourceKernels(Reals(exp)).(side := e.side)
  }

  ghost predicate Within(f: Stage<real>, m: real, M: real) {
    forall i, j :: m <= f(0, i, j) <= M
  }

  predicate BracketAt(f: Stage<real>, n: nat, m: real, M: real, z: int, i: int, j: int) {
    Bracket(m, M, f(n + z, i, j), f(z, i, j))
  }

  /** n weight planes above their n sum planes */
  ghost predicate Brackets(f: Stage<real>, n: nat, m: real, M: real) {
    forall z, i, j :: 0 <= z < n ==> BracketAt(f, n, m, M, z, i, j)
  }

  ghost predicate PlaneBrackets(f: Stage<real>, n: nat, m: real, M: real, z: int) {
    forall i, j :: BracketAt(f, n, m, M, z, i, j)
  }

  /** The grey values that fall in bin z are in [m, M]. */
  ghost predicate BinWithin(e: Kernels<real>, f: Stage<real>, z: int, m: real, M: real) {
    forall i, j :: e.bin(f(0, i, j)) + 2 == z ==> m <= f(0, i, j) <= M
  }

  lemma AccumulateBracket(e: Kernels<real>, exp: real -> real, m: real, M: real, z: int, w: real, s: real, v: real)
    requires RealKernels(e, exp) && Bracket(m, M, w, s) && (e.bin(v) + 2 == z ==> m <= v <= M)
    ensures Bracket(m, M, Accumulate(e, 1, z, w, v), Accumulate(e, 0, z, s, v))
  {
    if e.bin(v) + 2 == z {
      assert Bracket(m, M, 1.0, v);
      var w', s' := BracketSum(m, M, w, s, 1.0, v);
    }
  }

  lemma {:induction false} HistogramBracket(e: Kernels<real>, exp: real -> real, m: real, M: real, f: Stage<real>,
                                            z: int, i: int, j: int, a: nat, b: nat)
    returns (w: real, s: real)
    requires RealKernels(e, exp) && BinWithin(e, f, z, m, M)
    ensures w == Histogram(e, f, 1, z, i, j, a, b) && s == Histogram(e, f, 0, z, i, j, a, b) && Bracket(m, M, w, s)
    decreases a, b
  {
    if b > 0 {
      w, s := HistogramBracket(e, exp, m, M, f, z, i, j, a, b - 1);
      var v := f(0, -4 + a + 8 * i, -4 + 8 * j + b - 1);
      AccumulateBracket(e, exp, m, M, z, w, s, v);
      w, s := Accumulate(e, 1, z, w, v), Accumulate(e, 0, z, s, v);
    } else if a > 0 {
      w, s := HistogramBracket(e, exp, m, M, f, z, i, j, a - 1, e.side);
    } else {
      w, s := 0.0, 0.0;
    }
  }

  lemma GridPlane(e: Kernels<real>, exp: real -> real, m: real, M: real, f: Stage<real>, g: Stage<real>, z: int)
    requires RealKernels(e, exp) && BinWithin(e, f, z, m, M) && GridLaw(e, f, g) && 0 <= z < 15
    ensures PlaneBrackets(g, 15, m, M, z)
  {
    forall i, j ensures BracketAt(g, 15, m, M, z, i, j) {
      var w, s := HistogramBracket(e, exp, m, M, f, z, i, j, e.side, 0);
      assert Plane(0, z) == z && Plane(1, z) == 15 + z;
      assert g(Plane(0, z), i, j) == s && g(Plane(1, z), i, j) == w;
    }
  }

  lemma GridBrackets(e: Kernels<real>, exp: real -> real, m: real, M: real, f: Stage<real>, g: Stage<real>)
    requires RealKernels(e, exp) && Within(f, m, M) && GridLaw(e, f, g)
    ensures Brackets(g, 15, m, M)
  {
    forall z, i, j | 0 <= z < 15 ensures BracketAt(g, 15, m, M, z, i, j) {
      assert BinWithin(e, f, z, m, M);
      GridPlane(e, exp, m, M, f, g, z);
    }
  }

  lemma BlurZPlane(e: Kernels<real>, exp: real -> real, m: real, M: real, f: Stage<real>, g: Stage<real>, z: int)
    requires RealKernels(e, exp) && BlurZLaw(e, f, g) && 0 <= z < 11
    requires forall n :: z <= n <= z + 4 ==> PlaneBrackets(f, 15, m, M, n)
    ensures PlaneBrackets(g, 11, m, M, z)
  {
    assert PlaneBrackets(f, 15, m, M, z) && PlaneBrackets(f, 15, m, M, z + 1) && PlaneBrackets(f, 15, m, M, z + 2);
    assert PlaneBrackets(f, 15, m, M, z + 3) && PlaneBrackets(f, 15, m, M, z + 4);
    forall i, j ensures BracketAt(g, 11, m, M, z, i, j) {
      assert BracketAt(f, 15, m, M, z, i, j) && BracketAt(f, 15, m, M, z + 1, i, j) && BracketAt(f, 15, m, M, z + 2, i, j);
      assert BracketAt(f, 15, m, M, z + 3, i, j) && BracketAt(f, 15, m, M, z + 4, i, j);
      BracketBlur(exp, m, M,
                  [f(15 + z, i, j), f(15 + (z + 1), i, j), f(15 + (z + 2), i, j), f(15 + (z + 3), i, j), f(15 + (z + 4), i, j)],
                  [f(z, i, j), f(z + 1, i, j), f(z + 2, i, j), f(z + 3, i, j), f(z + 4, i, j)]);
      assert Below(z) == z && Below(11 + z) == 15 + z;
    }
  }

  lemma BlurRowsPlane(e: Kernels<real>, exp: real -> real, m: real, M: real, f: Stage<real>, g: Stage<real>, z: int)
    requires RealKernels(e, exp) && PlaneBrackets(f, 11, m, M, z) && BlurRowsLaw(e, f, g)
    ensures PlaneBrackets(g, 11, m, M, z)
  {
    forall i, j ensures BracketAt(g, 11, m, M, z, i, j) {
      var k := 11 + z;
      assert BracketAt(f, 11, m, M, z, i - 2, j) && BracketAt(f, 11, m, M, z, i - 1, j) && BracketAt(f, 11, m, M, z, i, j);
      assert BracketAt(f, 11, m, M, z, i + 1, j) && BracketAt(f, 11, m, M, z, i + 2, j);
      BracketBlur(exp, m, M, [f(k, i - 2, j), f(k, i - 1, j), f(k, i, j), f(k, i + 1, j), f(k, i + 2, j)],
                  [f(z, i - 2, j), f(z, i - 1, j), f(z, i, j), f(z, i + 1, j), f(z, i + 2, j)]);
    }
  }

  lemma BlurColsPlane(e: Kernels<real>, exp: real -> real, m: real, M: real, f: Stage<real>, g: Stage<real>, z: int)
    requires RealKernels(e, exp) && PlaneBrackets(f, 11, m, M, z) && BlurColsLaw(e, f, g)
    ensures PlaneBrackets(g, 11, m, M, z)
  {
    forall i, j ensures BracketAt(g, 11, m, M, z, i, j) {
      var k := 11 + z;
      assert BracketAt(f, 11, m, M, z, i, j - 2) && BracketAt(f, 11, m, M, z, i, j - 1) && BracketAt(f, 11, m, M, z, i, j);
      assert BracketAt(f, 11, m, M, z, i, j + 1) && BracketAt(f, 11, m, M, z, i, j + 2);
      BracketBlur(exp, m, M, [f(k, i, j - 2), f(k, i, j - 1), f(k, i, j), f(k, i, j + 1), f(k, i, j + 2)],
                  [f(z, i, j - 2), f(z, i, j - 1), f(z, i, j), f(z, i, j + 1), f(z, i, j + 2)]);
    }
  }

  /** from the five grid planes that plane z of blury is made of */
  lemma BluryPlane(e: Kernels<real>, exp: real -> real, m: real, M: real, s: Stages<real>, z: int)
    requires RealKernels(e, exp) && 0 <= z < 11 && forall n :: z <= n <= z + 4 ==> PlaneBrackets(s.grid, 15, m, M, n)
    requires BlurZLaw(e, s.grid, s.blurz) && BlurRowsLaw(e, s.blurz, s.blurx) && BlurColsLaw(e, s.blurx, s.blury)
    ensures PlaneBrackets(s.blury, 11, m, M, z)
  {
    BlurZPlane(e, exp, m, M, s.grid, s.blurz, z);
    BlurRowsPlane(e, exp, m, M, s.blurz, s.blurx, z);
    BlurColsPlane(e, exp, m, M, s.blurx, s.blury, z);
  }

  lemma BilinearBracket(exp: real -> real, m: real, M: real, f: Stage<real>, z: int, x: int, y: int, i: int, j: int)
    returns (w: real, s: real)
    requires PlaneBrackets(f, 11, m, M, z) && 0 <= x <= 7 && 0 <= y <= 7
    ensures w == Bilinear(Reals(exp), x, y, f(11 + z, i, j), f(11 + z, i + 1, j), f(11 + z, i, j + 1), f(11 + z, i + 1, j + 1))
    ensures s == Bilinear(Reals(exp), x, y, f(z, i, j), f(z, i + 1, j), f(z, i, j + 1), f(z, i + 1, j + 1))
    ensures Bracket(m, M, w, s)
  {
    var ar, k := Reals(exp), 11 + z;
    var p, q := Eighth(ar, x), Eighth(ar, y);
    assert BracketAt(f, 11, m, M, z, i, j) && BracketAt(f, 11, m, M, z, i + 1, j);
    assert BracketAt(f, 11, m, M, z, i, j + 1) && BracketAt(f, 11, m, M, z, i + 1, j + 1);
    var w1, s1 := BracketLerp(exp, m, M, p, f(k, i, j), f(z, i, j), f(k, i + 1, j), f(z, i + 1, j));
    var w2, s2 := BracketLerp(exp, m, M, p, f(k, i, j + 1), f(z, i, j + 1), f(k, i + 1, j + 1), f(z, i + 1, j + 1));
    w, s := BracketLerp(exp, m, M, q, w1, s1, w2, s2);
  }

  lemma LevelRange(exp: real -> real, v: real)
    requires 0.0 <= v < 1.0
    ensures 0 <= Level(Reals(exp), v) <= 9 && 0.0 <= Between(Reals(exp), v) <= 1.0
    ensures 0 <= SourceKernels(Reals(exp)).bin(v) <= 12
  {
  }

  /** t of the way from level z to z + 1 inside grid cell (i, j) */
  function SliceAt(ar: Arith<real>, t: real, f: Stage<real>, z: int, x: int, y: int, i: int, j: int): real {
    Lerp(ar, t, Bilinear(ar, x, y, f(z, i, j), f(z, i + 1, j), f(z, i, j + 1), f(z, i + 1, j + 1)),
         Bilinear(ar, x, y, f(z + 1, i, j), f(z + 1, i + 1, j), f(z + 1, i, j + 1), f(z + 1, i + 1, j + 1)))
  }

  lemma SliceAtBracket(exp: real -> real, m: real, M: real, t: real, f: Stage<real>, z: int, x: int, y: int, i: int, j: int)
    returns (w: real, s: real)
    requires PlaneBrackets(f, 11, m, M, z) && PlaneBrackets(f, 11, m, M, z + 1) && 0 <= x <= 7 && 0 <= y <= 7 && 0.0 <= t <= 1.0
    ensures w == SliceAt(Reals(exp), t, f, 11 + z, x, y, i, j) && s == SliceAt(Reals(exp), t, f, z, x, y, i, j)
    ensures Bracket(m, M, w, s)
  {
    var w1, s1 := BilinearBracket(exp, m, M, f, z, x, y, i, j);
    var w2, s2 := BilinearBracket(exp, m, M, f, z + 1, x, y, i, j);
    w, s := BracketLerp(exp, m, M, t, w1, s1, w2, s2);
  }

  lemma SliceIs(e: Kernels<real>, exp: real -> real, v: real, f: Stage<real>, c: int, i: int, j: int, z: int)
    requires RealKernels(e, exp) && z == 11 * c + Level(Reals(exp), v)
    ensures Slice(e, v, f, c, i, j) == SliceAt(Reals(exp), Between(Reals(exp), v), f, z, i % 8, j % 8, i / 8, j / 8)
  {
  }

  /** where the slice reads: level z, t of the way up, in cell (u, w) at offset (x, y) */
  lemma SlicePlace(exp: real -> real, v: real, i: int, j: int) returns (t: real, z: int, x: int, y: int)
    requires 0.0 <= v < 1.0
    ensures t == Between(Reals(exp), v) && z == Level(Reals(exp), v) && x == i % 8 && y == j % 8
    ensures 0.0 <= t <= 1.0 && 0 <= z <= 9 && 0 <= x <= 7 && 0 <= y <= 7
  {
    LevelRange(exp, v);
    t, z := Between(Reals(exp), v), Level(Reals(exp), v);
    x, y := i % 8, j % 8;
  }

  lemma SliceBracket(e: Kernels<real>, exp: real -> real, m: real, M: real, v: real, f: Stage<real>, i: int, j: int)
    returns (w: real, s: real)
    requires RealKernels(e, exp) && 0.0 <= v < 1.0
    requires PlaneBrackets(f, 11, m, M, Level(Reals(exp), v)) && PlaneBrackets(f, 11, m, M, Level(Reals(exp), v) + 1)
    ensures w == Slice(e, v, f, 1, i, j) && s == Slice(e, v, f, 0, i, j) && Bracket(m, M, w, s)
  {
    var t, z, x, y := SlicePlace(exp, v, i, j);
    w, s := SliceAtBracket(exp, m, M, t, f, z, x, y, i / 8, j / 8);
    SliceIs(e, exp, v, f, 0, i, j, z);
    SliceIs(e, exp, v, f, 1, i, j, 11 + z);
  }

  lemma QuotientBelow(m: real, weight: real, sum: real)
    requires m * weight <= sum && 0.0 < weight
    ensures m <= sum / weight
  {
    assert m * weight / weight == m;
  }

  lemma QuotientAbove(M: real, weight: real, sum: real)
    requires sum <= M * weight && 0.0 < weight
    ensures sum / weight <= M
  {
    assert M * weight / weight == M;
  }

  lemma Quotient(m: real, M: real, weight: real, sum: real)
    requires Bracket(m, M, weight, sum) && 0.0 < weight
    ensures m <= sum / weight <= M
  {
    QuotientBelow(m, weight, sum);
    QuotientAbove(M, weight, sum);
  }

  lemma NormalRange(e: Kernels<real>, exp: real -> real, m: real, M: real, weight: real, sum: real, v: real)
    requires RealKernels(e, exp) && Bracket(m, M, weight, sum) && m <= v <= M
    ensures m <= e.normal(sum, weight, v) <= M
    ensures if weight > 0.0 then e.normal(sum, weight, v) == sum / weight else e.normal(sum, weight, v) == v
  {
    if 0.0 < weight {
      Quotient(m, M, weight, sum);
    }
  }

  lemma BluryBrackets(e: Kernels<real>, exp: real -> real, m: real, M: real, s: Stages<real>)
    requires RealKernels(e, exp) && Within(s.gray, m, M) && GridLaw(e, s.gray, s.grid) && BlurZLaw(e, s.grid, s.blurz)
    requires BlurRowsLaw(e, s.blurz, s.blurx) && BlurColsLaw(e, s.blurx, s.blury)
    ensures Brackets(s.blury, 11, m, M)
  {
    GridBrackets(e, exp, m, M, s.gray, s.grid);
    forall z, i, j | 0 <= z < 11 ensures BracketAt(s.blury, 11, m, M, z, i, j) {
      BluryPlane(e, exp, m, M, s, z);
    }
  }

  lemma FilteredPixel(e: Kernels<real>, exp: real -> real, m: real, M: real, v: real, f: Stage<real>, i: int, j: int)
    requires RealKernels(e, exp) && Brackets(f, 11, m, M) && 0.0 <= v < 1.0 && m <= v <= M
    ensures m <= e.normal(Slice(e, v, f, 0, i, j), Slice(e, v, f, 1, i, j), v) <= M
  {
    LevelRange(exp, v);
    var w, s := SliceBracket(e, exp, m, M, v, f, i, j);
    NormalRange(e, exp, m, M, w, s, v);
  }

  /** The output is in [m, M] wherever the input is. */
  lemma RangeKept(e: Kernels<real>, exp: real -> real, m: real, M: real, s: Stages<real>)
    requires 0.0 <= m && M < 1.0 && RealKernels(e, exp) && Lawful(e, s) && Within(s.gray, m, M)
    ensures Within(s.filtered, m, M)
  {
    BluryBrackets(e, exp, m, M, s);
    forall i, j ensures m <= s.filtered(0, i, j) <= M {
      FilteredPixel(e, exp, m, M, s.gray(0, i, j), s.blury, i, j);
    }
  }

  /** The tiled code, over the reals, keeps every output pixel in the range of the grey image. */
  method TiledInRange(R: int, C: int, gray: Window<real>, exp: real -> real, m: real, M: real, stray: (int, int, int) -> real)
    returns (filtered: Window<real>)
    requires R >= 57 && C >= 57 && gray.buf.Valid() && 0.0 <= m <= M < 1.0
    requires forall i, j {:trigger gray.At(0, i, j)} :: Whole(R, C).Has(i, j) ==> m <= gray.At(0, i, j) <= M
    ensures CanStore(filtered, 1, Image(R, C))
    ensures forall i, j :: 24 <= i <= R - 33 && 24 <= j <= C - 33 ==> m <= filtered.At(0, i, j) <= M
  {
    var e := SourceKernels(Reals(exp));
    ghost var f := BoundedPixels(R, C, gray, m, M);
    ghost var s := BoundedStages(e, exp, R, C, f, m, M);
    filtered := Tiled(e, R, C, gray, stray, s);
  }

  /** The image, continued with m outside. */
  lemma BoundedPixels(R: int, C: int, gray: Window<real>, m: real, M: real) returns (f: Stage<real>)
    requires gray.buf.Valid() && m <= M
    requires forall i, j {:trigger gray.At(0, i, j)} :: Whole(R, C).Has(i, j) ==> m <= gray.At(0, i, j) <= M
    ensures Known(gray, 1, Whole(R, C), f) && Within(f, m, M)
  {
    var pixels := Snapshot(gray);
    f := (k, i, j) => if Whole(R, C).Has(i, j) then pixels(0, i, j) else m;
  }

  lemma BoundedStages(e: Kernels<real>, exp: real -> real, R: int, C: int, f: Stage<real>, m: real, M: real)
    returns (s: Stages<real>)
    requires RealKernels(e, exp) && e.side <= 9 && 0.0 <= m && M < 1.0 && Within(f, m, M)
    ensures s.gray == f && Lawful(e, s) && Acceptable(e, s, R, C) && Within(s.filtered, m, M)
  {
    s := MakeStages(e, f);
    AcceptableWithin(e, exp, R, C, s, m, M);
    RangeKept(e, exp, m, M, s);
  }

  lemma AcceptableWithin(e: Kernels<real>, exp: real -> real, R: int, C: int, s: Stages<real>, m: real, M: real)
    requires RealKernels(e, exp) && e.side <= 9 && 0.0 <= m && M < 1.0 && Within(s.gray, m, M)
    ensures Acceptable(e, s, R, C)
  {
    forall i, j ensures 0 <= e.bin(s.gray(0, i, j)) <= 12 && 0 <= e.level(s.gray(0, i, j)) <= 9 {
      LevelRange(exp, s.gray(0, i, j));
    }
  }
}
