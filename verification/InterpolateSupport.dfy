/** Where the interpolated image is defined: over the reals, the final alpha of a pixel is positive exactly when an opaque
    pixel reaches it through the pyramid. */
module InterpolateSupport {
  import opened Arithmetic
  import opened Buffers
  import opened InterpolateSpec
  import opened InterpolateNaive
  import opened InterpolateRange

  /** Every pixel is transparent or opaque. */
  ghost predicate Binary(img: Stage<real>) {
    forall i, j {:trigger img(3, i, j)} :: img(3, i, j) == 0.0 || img(3, i, j) == 1.0
  }

  /** An opaque pixel is below cell (i, j) of level l of the downsampled pyramid. */
  predicate Sees(img: Stage<real>, l: nat, i: int, j: int) {
    if l == 0 then img(3, i, j) == 1.0
    else Inner(Rows(l), Cols(l), i, j) && (SeesRows(img, l, i, 2 * j - 2) || SeesRows(img, l, i, 2 * j - 1) || SeesRows(img, l, i, 2 * j))
  }

  /** the same, where only the rows have been halved */
  predicate SeesRows(img: Stage<real>, l: nat, i: int, j: int)
    requires l > 0
    decreases l, 0
  {
    Inner(Rows(l), Cols(l - 1), i, j) && (Sees(img, l - 1, 2 * i - 2, j) || Sees(img, l - 1, 2 * i - 1, j) || Sees(img, l - 1, 2 * i, j))
  }

  /** An opaque pixel reaches cell (i, j) of interpolated level l, from below or by way of coarser levels. */
  predicate Lit(img: Stage<real>, l: nat, i: int, j: int)
    decreases 9 - l, 1
  {
    if l >= 9 then Sees(img, 9, i, j)
    else Inner(Rows(l), Cols(l), i, j) && (Sees(img, l, i, j) || LitRows(img, l, i, (j + 1) / 2) || LitRows(img, l, i, (j + 2) / 2))
  }

  predicate LitRows(img: Stage<real>, l: nat, i: int, j: int)
    requires l < 9
    decreases 9 - l, 0
  {
    Inner(Rows(l), Cols(l + 1), i, j) && (Lit(img, l + 1, (i + 1) / 2, j) || Lit(img, l + 1, (i + 2) / 2, j))
  }

  /** alphas in [0, 1] */
  ghost predicate Unit(f: Stage<real>) {
    forall i, j {:trigger f(3, i, j)} :: 0.0 <= f(3, i, j) <= 1.0
  }

  lemma UnitFrom(f: Stage<real>)
    requires AllRanged(f, 3, 1.0, 1.0)
    ensures Unit(f)
  {
    forall i, j ensures 0.0 <= f(3, i, j) <= 1.0 {
      assert RangedAt(f, 3, 1.0, 1.0, i, j);
    }
  }

  lemma DownPositive(e: Kernels<real>, exp: real -> real, a: real, b: real, c: real)
    requires e == SourceKernels(Reals(exp)) && 0.0 <= a && 0.0 <= b && 0.0 <= c
    ensures e.down(a, b, c) > 0.0 <==> a > 0.0 || b > 0.0 || c > 0.0
  {
  }

  lemma MeanPositive(e: Kernels<real>, exp: real -> real, a: real, b: real)
    requires e == SourceKernels(Reals(exp)) && 0.0 <= a && 0.0 <= b
    ensures e.mean(a, b) > 0.0 <==> a > 0.0 || b > 0.0
  {
  }

  lemma ProductPositive(a: real, b: real)
    requires 0.0 <= a && 0.0 < b
    ensures 0.0 <= b * a && (b * a > 0.0 <==> a > 0.0)
  {
  }

  lemma MixPositive(d: real, a: real, b: real)
    requires 0.0 <= d <= 1.0 && 0.0 <= a && 0.0 <= b
    ensures Mix(d, d, a, b) > 0.0 <==> d > 0.0 || a > 0.0 || b > 0.0
  {
    var y, t := (a + b) / 2.0, 1.0 - d;
    var z := t * y;
    assert Mix(d, d, a, b) == d + z;
    if t > 0.0 {
      ProductPositive(y, t);
    } else {
      assert z == 0.0;
    }
  }

  lemma {:induction false} SeenExactly(e: Kernels<real>, exp: real -> real, s: Stages<real>, l: nat, i: int, j: int)
    requires e == SourceKernels(Reals(exp)) && Lawful(e, s) && Binary(s.img) && l <= 9
    ensures s.d[l](3, i, j) > 0.0 <==> Sees(s.img, l, i, j)
    decreases l, 1
  {
    if l > 0 {
      assert LawfulDown(e, l - 1, s.d[l - 1], s.dx[l - 1], s.d[l - 1 + 1]);
      var x := s.dx[l - 1];
      forall v ensures x(3, i, v) > 0.0 <==> SeesRows(s.img, l, i, v) && 0.0 <= x(3, i, v) {
        SeenRowsExactly(e, exp, s, l, i, v);
      }
      SeenRowsExactly(e, exp, s, l, i, 2 * j - 2);
      SeenRowsExactly(e, exp, s, l, i, 2 * j - 1);
      SeenRowsExactly(e, exp, s, l, i, 2 * j);
      DownPositive(e, exp, x(3, i, 2 * j - 2), x(3, i, 2 * j - 1), x(3, i, 2 * j));
      assert s.d[l](3, i, j) == if Inner(Rows(l), Cols(l), i, j) then DownCol(e, x, 3, i, j) else 0.0;
    } else {
      assert s.d[0](3, i, j) == s.img(3, i, j) * s.img(3, i, j);
    }
  }

  lemma {:induction false} SeenRowsExactly(e: Kernels<real>, exp: real -> real, s: Stages<real>, l: nat, i: int, j: int)
    requires e == SourceKernels(Reals(exp)) && Lawful(e, s) && Binary(s.img) && 0 < l <= 9
    ensures s.dx[l - 1](3, i, j) >= 0.0 && (s.dx[l - 1](3, i, j) > 0.0 <==> SeesRows(s.img, l, i, j))
    decreases l, 0
  {
    assert LawfulDown(e, l - 1, s.d[l - 1], s.dx[l - 1], s.d[l - 1 + 1]);
    var f := s.d[l - 1];
    DownsRanged(e, exp, 3, 1.0, 1.0, s, l - 1);
    UnitFrom(f);
    SeenExactly(e, exp, s, l - 1, 2 * i - 2, j);
    SeenExactly(e, exp, s, l - 1, 2 * i - 1, j);
    SeenExactly(e, exp, s, l - 1, 2 * i, j);
    DownPositive(e, exp, f(3, 2 * i - 2, j), f(3, 2 * i - 1, j), f(3, 2 * i, j));
    assert s.dx[l - 1](3, i, j) == if Inner(Rows(l), Cols(l - 1), i, j) then DownRow(e, f, 3, i, j) else 0.0;
  }

  lemma {:induction false} LitRowsExactly(e: Kernels<real>, exp: real -> real, s: Stages<real>, l: nat, i: int, j: int)
    requires e == SourceKernels(Reals(exp)) && Lawful(e, s) && Binary(s.img) && l < 9
    ensures s.ux[l](3, i, j) >= 0.0 && (s.ux[l](3, i, j) > 0.0 <==> LitRows(s.img, l, i, j))
    decreases 9 - l, 0
  {
    assert LawfulUp(e, l, s.up[l + 1], s.d[l], s.ux[l], s.up[l]);
    var f := s.up[l + 1];
    UpsRanged(e, exp, 3, 1.0, 1.0, s, l + 1);
    UnitFrom(f);
    LitExactly(e, exp, s, l + 1, (i + 1) / 2, j);
    LitExactly(e, exp, s, l + 1, (i + 2) / 2, j);
    MeanPositive(e, exp, f(3, (i + 1) / 2, j), f(3, (i + 2) / 2, j));
    assert s.ux[l](3, i, j) == if Inner(Rows(l), Cols(l + 1), i, j) then UpRow(e, f, 3, i, j) else 0.0;
  }

  lemma {:induction false} LitExactly(e: Kernels<real>, exp: real -> real, s: Stages<real>, l: nat, i: int, j: int)
    requires e == SourceKernels(Reals(exp)) && Lawful(e, s) && Binary(s.img) && l <= 9
    ensures s.up[l](3, i, j) > 0.0 <==> Lit(s.img, l, i, j)
    decreases 9 - l, 1
  {
    SeenExactly(e, exp, s, l, i, j);
    if l < 9 {
      assert LawfulUp(e, l, s.up[l + 1], s.d[l], s.ux[l], s.up[l]);
      var u, v := (j + 1) / 2, (j + 2) / 2;
      LitRowsExactly(e, exp, s, l, i, u);
      LitRowsExactly(e, exp, s, l, i, v);
      DownsRanged(e, exp, 3, 1.0, 1.0, s, l);
      UnitFrom(s.d[l]);
      BlendIs(e, exp, s.d[l], s.ux[l], 3, i, j);
      MixPositive(s.d[l](3, i, j), s.ux[l](3, i, u), s.ux[l](3, i, v));
      assert s.up[l](3, i, j) == if Inner(Rows(l), Cols(l), i, j) then Blend(e, s.d[l], s.ux[l], 3, i, j) else 0.0;
    }
  }

  // A simple case: an opaque pixel in the same 512 x 512 block.

  /** n halved l times, rounding up */
  function Halve(n: int, l: nat): int {
    if l == 0 then n else (Halve(n, l - 1) + 1) / 2
  }

  lemma {:induction false} HalveInner(l: nat, i: int, j: int)
    requires l <= 9 && Inner(Rows(0), Cols(0), i, j)
    ensures Inner(Rows(l), Cols(l), Halve(i, l), Halve(j, l))
  {
    if l > 0 {
      HalveInner(l - 1, i, j);
      Halved(l - 1);
    }
  }

  lemma SeenByHalf(img: Stage<real>, l: nat, u: int, v: int)
    requires 0 < l <= 9 && Sees(img, l - 1, u, v) && Inner(Rows(l - 1), Cols(l - 1), u, v)
    requires Inner(Rows(l), Cols(l), (u + 1) / 2, (v + 1) / 2)
    ensures Sees(img, l, (u + 1) / 2, (v + 1) / 2)
  {
    var a, b := (u + 1) / 2, (v + 1) / 2;
    assert u == 2 * a || u == 2 * a - 1;
    assert v == 2 * b || v == 2 * b - 1;
    assert SeesRows(img, l, a, v);
  }

  lemma {:induction false} SeenFromAbove(img: Stage<real>, l: nat, i: int, j: int)
    requires l <= 9 && Inner(Rows(0), Cols(0), i, j) && img(3, i, j) == 1.0
    ensures Sees(img, l, Halve(i, l), Halve(j, l))
  {
    if l > 0 {
      SeenFromAbove(img, l - 1, i, j);
      HalveInner(l - 1, i, j);
      HalveInner(l, i, j);
      var u, v := Halve(i, l - 1), Halve(j, l - 1);
      assert Halve(i, l) == (u + 1) / 2 && Halve(j, l) == (v + 1) / 2;
      SeenByHalf(img, l, u, v);
    }
  }

  lemma {:induction false} LitFromAbove(img: Stage<real>, l: nat, i: int, j: int)
    requires l <= 9 && Inner(Rows(0), Cols(0), i, j) && Lit(img, 9, Halve(i, 9), Halve(j, 9))
    ensures Lit(img, l, Halve(i, l), Halve(j, l))
    decreases 9 - l
  {
    if l < 9 {
      LitFromAbove(img, l + 1, i, j);
      HalveInner(l, i, j);
      HalveInner(l + 1, i, j);
      assert LitRows(img, l, Halve(i, l), Halve(j, l + 1));
    }
  }

  lemma {:induction false} HalveBlock(n: int, l: nat, m: nat, b: int)
    requires m * (b - 1) < Halve(n, l) <= m * b && m >= 1
    ensures m > 1 && m % 2 == 0 ==> m / 2 * (b - 1) < Halve(n, l + 1) <= m / 2 * b
  {
  }

  /** the 512 x 512 block of a pixel */
  function Block(n: int): int { (n + 511) / 512 }

  lemma BlockIs(n: int)
    ensures Halve(n, 9) == Block(n)
  {
    var b := Block(n);
    HalveBlock(n, 0, 512, b);
    HalveBlock(n, 1, 256, b);
    HalveBlock(n, 2, 128, b);
    HalveBlock(n, 3, 64, b);
    HalveBlock(n, 4, 32, b);
    HalveBlock(n, 5, 16, b);
    HalveBlock(n, 6, 8, b);
    HalveBlock(n, 7, 4, b);
    HalveBlock(n, 8, 2, b);
  }

  /** The result's pixel (i, j) is the padded image's (i + 1, j + 1). It is in the range of the opaque pixels if one of them
      reaches it ... */
  lemma LitInRange(e: Kernels<real>, exp: real -> real, c: int, m: real, M: real, s: Stages<real>, i: int, j: int)
    requires e == SourceKernels(Reals(exp)) && Lawful(e, s) && Opaque(s.img, c, m, M) && Lit(s.img, 0, i + 1, j + 1)
    ensures m <= s.out(c, i, j) <= M
  {
    LitExactly(e, exp, s, 0, i + 1, j + 1);
    RangeKept(e, exp, c, m, M, s, i, j);
  }

  /** ... and so if one of them, (u, v), is in its block. */
  lemma BlockInRange(e: Kernels<real>, exp: real -> real, c: int, m: real, M: real, s: Stages<real>, i: int, j: int, u: int, v: int)
    requires e == SourceKernels(Reals(exp)) && Lawful(e, s) && Opaque(s.img, c, m, M) && Image.Has(i, j)
    requires Inner(Rows(0), Cols(0), u, v) && s.img(3, u, v) == 1.0 && Block(u) == Block(i + 1) && Block(v) == Block(j + 1)
    ensures m <= s.out(c, i, j) <= M
  {
    SeenFromAbove(s.img, 9, u, v);
    BlockIs(u);
    BlockIs(v);
    BlockIs(i + 1);
    BlockIs(j + 1);
    LitFromAbove(s.img, 0, i + 1, j + 1);
    LitInRange(e, exp, c, m, M, s, i, j);
  }
}
