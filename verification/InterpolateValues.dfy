/** The filters of multi-scale interpolation over the reals, in plain arithmetic. */
module InterpolateValues {
  import opened Arithmetic
  import opened Buffers
  import opened InterpolateSpec
  import opened InterpolateNaive
  import opened InterpolateRange

  /** three rows of a column, weighted 1 2 1; the column before the image counts as zero */
  function Column(f: Stage<real>, k: int, i: int, j: int): real {
    if j >= 1 then f(k, 2 * i - 2, j) + 2.0 * f(k, 2 * i - 1, j) + f(k, 2 * i, j) else 0.0
  }

  lemma DownIs(e: Kernels<real>, exp: real -> real, a: real, b: real, c: real)
    requires e == SourceKernels(Reals(exp))
    ensures 4.0 * e.down(a, b, c) == a + 2.0 * b + c
  {
  }

  lemma ColumnIs(e: Kernels<real>, exp: real -> real, f: Stage<real>, R: int, C: int, x: Stage<real>, k: int, i: int, j: int)
    requires e == SourceKernels(Reals(exp)) && DownRowLaw(e, f, R, C, x) && 1 <= i <= R && j <= C
    ensures 4.0 * x(k, i, j) == Column(f, k, i, j)
  {
    DownIs(e, exp, f(k, 2 * i - 2, j), f(k, 2 * i - 1, j), f(k, 2 * i, j));
    assert x(k, i, j) == if Inner(R, C, i, j) then DownRow(e, f, k, i, j) else 0.0;
  }

  /** A downsampled cell is the mean of 3 x 3 finer ones, weighted 1 2 1 along both axes. */
  lemma DownWeights(e: Kernels<real>, exp: real -> real, l: nat, f: Stage<real>, x: Stage<real>, g: Stage<real>, k: int, i: int, j: int)
    requires e == SourceKernels(Reals(exp)) && l < 9 && LawfulDown(e, l, f, x, g) && Inner(Rows(l + 1), Cols(l + 1), i, j)
    ensures 16.0 * g(k, i, j) == Column(f, k, i, 2 * j - 2) + 2.0 * Column(f, k, i, 2 * j - 1) + Column(f, k, i, 2 * j)
  {
    Halved(l);
    ColumnIs(e, exp, f, Rows(l + 1), Cols(l), x, k, i, 2 * j - 2);
    ColumnIs(e, exp, f, Rows(l + 1), Cols(l), x, k, i, 2 * j - 1);
    ColumnIs(e, exp, f, Rows(l + 1), Cols(l), x, k, i, 2 * j);
    DownIs(e, exp, x(k, i, 2 * j - 2), x(k, i, 2 * j - 1), x(k, i, 2 * j));
    assert g(k, i, j) == DownCol(e, x, k, i, j);
  }

  /** 2 at 0, 1 beside it */
  function Tent(n: int): real { if n == 0 then 2.0 else if n == 1 || n == -1 then 1.0 else 0.0 }

  /** Only (u, v) is opaque. */
  ghost predicate Single(img: Stage<real>, u: int, v: int) {
    forall i, j {:trigger img(3, i, j)} :: img(3, i, j) == if i == u && j == v then 1.0 else 0.0
  }

  lemma SingleColumn(f: Stage<real>, k: int, x: real, u: int, v: int, i: int, j: int)
    requires v >= 1 && forall i, j {:trigger f(k, i, j)} :: f(k, i, j) == if i == u && j == v then x else 0.0
    ensures Column(f, k, i, j) == if j == v then Tent(2 * i - 1 - u) * x else 0.0
  {
  }

  /** It spreads as the product of two tents, colour and alpha alike. */
  lemma SingleSpreads(e: Kernels<real>, exp: real -> real, s: Stages<real>, u: int, v: int, k: int, i: int, j: int) returns (x: real)
    requires e == SourceKernels(Reals(exp)) && Lawful(e, s) && Single(s.img, u, v) && v >= 1 && Inner(Rows(1), Cols(1), i, j)
    ensures x == s.img(k, u, v) && 16.0 * s.d[1](k, i, j) == Tent(2 * j - 1 - v) * (Tent(2 * i - 1 - u) * x)
  {
    x := s.img(k, u, v);
    var f := s.d[0];
    forall i, j ensures f(k, i, j) == if i == u && j == v then x else 0.0 {
      assert f(k, i, j) == s.img(k, i, j) * s.img(3, i, j);
    }
    SingleColumn(f, k, x, u, v, i, 2 * j - 2);
    SingleColumn(f, k, x, u, v, i, 2 * j - 1);
    SingleColumn(f, k, x, u, v, i, 2 * j);
    assert LawfulDown(e, 0, s.d[0], s.dx[0], s.d[0 + 1]);
    DownWeights(e, exp, 0, f, s.dx[0], s.d[1], k, i, j);
  }

  lemma MeanIs(e: Kernels<real>, exp: real -> real, a: real, b: real)
    requires e == SourceKernels(Reals(exp))
    ensures 2.0 * e.mean(a, b) == a + b
  {
  }

  ghost predicate ZeroBorders(f: Stage<real>, l: nat, k: int) {
    forall i, j {:trigger f(k, i, j)} :: !Inner(Rows(l), Cols(l), i, j) ==> f(k, i, j) == 0.0
  }

  /** a cell halved along rows is the mean of two, at the borders as well */
  lemma UpRowIs(e: Kernels<real>, exp: real -> real, l: nat, above: Stage<real>, u: Stage<real>, k: int, i: int, j: int)
    requires e == SourceKernels(Reals(exp)) && l < 9 && UpRowLaw(e, above, Rows(l), Cols(l + 1), u) && 1 <= i <= Rows(l)
    requires ZeroBorders(above, l + 1, k)
    ensures 2.0 * u(k, i, j) == above(k, (i + 1) / 2, j) + above(k, (i + 2) / 2, j)
  {
    MeanIs(e, exp, above(k, (i + 1) / 2, j), above(k, (i + 2) / 2, j));
    assert u(k, i, j) == if Inner(Rows(l), Cols(l + 1), i, j) then UpRow(e, above, k, i, j) else 0.0;
  }

  /** A cell that level l knows with alpha a is that much itself, and for the rest the mean of the four coarser cells
      around it. */
  lemma BlendsFour(e: Kernels<real>, exp: real -> real, l: nat, above: Stage<real>, d: Stage<real>, u: Stage<real>, g: Stage<real>,
                   k: int, i: int, j: int) returns (m: real)
    requires e == SourceKernels(Reals(exp)) && l < 9 && LawfulUp(e, l, above, d, u, g) && Inner(Rows(l), Cols(l), i, j)
    requires ZeroBorders(above, l + 1, k)
    ensures 4.0 * m == above(k, (i + 1) / 2, (j + 1) / 2) + above(k, (i + 2) / 2, (j + 1) / 2)
                       + above(k, (i + 1) / 2, (j + 2) / 2) + above(k, (i + 2) / 2, (j + 2) / 2)
    ensures g(k, i, j) == d(k, i, j) + (1.0 - d(3, i, j)) * m
  {
    var a, b := (j + 1) / 2, (j + 2) / 2;
    UpRowIs(e, exp, l, above, u, k, i, a);
    UpRowIs(e, exp, l, above, u, k, i, b);
    m := (u(k, i, a) + u(k, i, b)) / 2.0;
    BlendWith(e, exp, d, u, k, i, j, m);
    assert g(k, i, j) == Blend(e, d, u, k, i, j);
  }

  lemma BlendWith(e: Kernels<real>, exp: real -> real, d: Stage<real>, u: Stage<real>, k: int, i: int, j: int, m: real)
    requires e == SourceKernels(Reals(exp)) && m == (u(k, i, (j + 1) / 2) + u(k, i, (j + 2) / 2)) / 2.0
    ensures Blend(e, d, u, k, i, j) == d(k, i, j) + (1.0 - d(3, i, j)) * m
  {
    BlendIs(e, exp, d, u, k, i, j);
  }

  /** the borders of every interpolated level are zero */
  lemma BordersZero(e: Kernels<real>, exp: real -> real, s: Stages<real>, l: nat, k: int)
    requires e == SourceKernels(Reals(exp)) && Lawful(e, s) && 1 <= l <= 9
    ensures ZeroBorders(s.up[l], l, k)
  {
    if l == 9 {
      assert LawfulDown(e, 8, s.d[8], s.dx[8], s.d[8 + 1]);
    } else {
      assert LawfulUp(e, l, s.up[l + 1], s.d[l], s.ux[l], s.up[l]);
    }
  }

  lemma TransparentCell(e: Kernels<real>, exp: real -> real, l: nat, above: Stage<real>, d: Stage<real>, u: Stage<real>, g: Stage<real>,
                        k: int, i: int, j: int)
    requires e == SourceKernels(Reals(exp)) && l < 9 && LawfulUp(e, l, above, d, u, g) && Inner(Rows(l), Cols(l), i, j)
    requires ZeroBorders(above, l + 1, k) && d(k, i, j) == 0.0 && d(3, i, j) == 0.0
    ensures 4.0 * g(k, i, j) == above(k, (i + 1) / 2, (j + 1) / 2) + above(k, (i + 2) / 2, (j + 1) / 2)
                                + above(k, (i + 1) / 2, (j + 2) / 2) + above(k, (i + 2) / 2, (j + 2) / 2)
  {
    var m := BlendsFour(e, exp, l, above, d, u, g, k, i, j);
    assert (1.0 - d(3, i, j)) * m == m;
  }

  lemma PremultipliedZero(e: Kernels<real>, exp: real -> real, img: Stage<real>, d: Stage<real>, k: int, i: int, j: int)
    requires e == SourceKernels(Reals(exp)) && PremultiplyLaw(e, img, d) && img(3, i, j) == 0.0
    ensures d(k, i, j) == 0.0
  {
    assert d(k, i, j) == img(k, i, j) * img(3, i, j);
  }

  /** A transparent pixel gets the mean of the four cells of level 1 around it, alpha included. */
  lemma TransparentFilled(e: Kernels<real>, exp: real -> real, s: Stages<real>, k: int, i: int, j: int)
    requires e == SourceKernels(Reals(exp)) && Lawful(e, s) && s.img(3, i, j) == 0.0 && Inner(Rows(0), Cols(0), i, j)
    ensures 4.0 * s.up[0](k, i, j) == s.up[1](k, (i + 1) / 2, (j + 1) / 2) + s.up[1](k, (i + 2) / 2, (j + 1) / 2)
                                      + s.up[1](k, (i + 1) / 2, (j + 2) / 2) + s.up[1](k, (i + 2) / 2, (j + 2) / 2)
  {
    BordersZero(e, exp, s, 1, k);
    assert LawfulUp(e, 0, s.up[0 + 1], s.d[0], s.ux[0], s.up[0]);
    PremultipliedZero(e, exp, s.img, s.d[0], k, i, j);
    PremultipliedZero(e, exp, s.img, s.d[0], 3, i, j);
    TransparentCell(e, exp, 0, s.up[1], s.d[0], s.ux[0], s.up[0], k, i, j);
  }
}
