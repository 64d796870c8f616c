/** Over the reals, interpolation keeps the range of the opaque pixels: m * alpha <= colour <= M * alpha is carried down
    nine levels and back up, zero borders included, and alpha stays in [0, 1]. */
module InterpolateRange {
  import opened Arithmetic
  import opened Buffers
  import opened BilateralRange
  import opened InterpolateSpec
  import opened InterpolateNaive
  import opened InterpolateTiled

  /** alpha, and a colour premultiplied by it */
  predicate Ranged(m: real, M: real, w: real, s: real) {
    w <= 1.0 && Bracket(m, M, w, s)
  }

  predicate RangedAt(f: Stage<real>, c: int, m: real, M: real, i: int, j: int) {
    Ranged(m, M, f(3, i, j), f(c, i, j))
  }

  ghost predicate AllRanged(f: Stage<real>, c: int, m: real, M: real) {
    forall i, j :: RangedAt(f, c, m, M, i, j)
  }

  /** Every pixel is transparent, or opaque with the colour in [m, M]. */
  ghost predicate Opaque(img: Stage<real>, c: int, m: real, M: real) {
    forall i, j {:trigger img(3, i, j)} {:trigger img(c, i, j)} ::
      img(3, i, j) == 0.0 || (img(3, i, j) == 1.0 && m <= img(c, i, j) <= M)
  }

  lemma RangedZero(m: real, M: real)
    ensures Ranged(m, M, 0.0, 0.0)
  {
  }

  lemma RangedDown(m: real, M: real, w1: real, s1: real, w2: real, s2: real, w3: real, s3: real) returns (w: real, s: real)
    requires Ranged(m, M, w1, s1) && Ranged(m, M, w2, s2) && Ranged(m, M, w3, s3)
    ensures w == (w1 + 2.0 * w2 + w3) * 0.25 && s == (s1 + 2.0 * s2 + s3) * 0.25 && Ranged(m, M, w, s)
  {
    var a, b := BracketScale(m, M, 2.0, w2, s2);
    var p, q := BracketSum(m, M, w1, s1, a, b);
    var x, y := BracketSum(m, M, p, q, w3, s3);
    w, s := BracketScale(m, M, 0.25, x, y);
  }

  lemma RangedMean(m: real, M: real, w1: real, s1: real, w2: real, s2: real) returns (w: real, s: real)
    requires Ranged(m, M, w1, s1) && Ranged(m, M, w2, s2)
    ensures w == (w1 + w2) / 2.0 && s == (s1 + s2) / 2.0 && Ranged(m, M, w, s)
  {
    var x, y := BracketSum(m, M, w1, s1, w2, s2);
    w, s := BracketScale(m, M, 0.5, x, y);
  }

  lemma RangedBlend(m: real, M: real, d: real, e: real, w1: real, s1: real) returns (w: real, s: real)
    requires Ranged(m, M, d, e) && Ranged(m, M, w1, s1)
    ensures w == d + (1.0 - d) * w1 && s == e + (1.0 - d) * s1 && Ranged(m, M, w, s)
  {
    var x, y := BracketScale(m, M, 1.0 - d, w1, s1);
    Monotone(1.0 - d, w1, 1.0);
    w, s := BracketSum(m, M, d, e, x, y);
  }

  lemma PremultiplyRanged(e: Kernels<real>, exp: real -> real, c: int, m: real, M: real, img: Stage<real>, g: Stage<real>)
    requires e == SourceKernels(Reals(exp)) && PremultiplyLaw(e, img, g) && Opaque(img, c, m, M)
    ensures AllRanged(g, c, m, M)
  {
    forall i, j ensures RangedAt(g, c, m, M, i, j) {
      assert g(3, i, j) == img(3, i, j) * img(3, i, j) && g(c, i, j) == img(c, i, j) * img(3, i, j);
      if img(3, i, j) == 0.0 {
        RangedZero(m, M);
      }
    }
  }

  lemma DownRowRanged(e: Kernels<real>, exp: real -> real, c: int, m: real, M: real, f: Stage<real>, R: int, C: int, g: Stage<real>)
    requires e == SourceKernels(Reals(exp)) && DownRowLaw(e, f, R, C, g) && AllRanged(f, c, m, M)
    ensures AllRanged(g, c, m, M)
  {
    forall i, j ensures RangedAt(g, c, m, M, i, j) {
      assert RangedAt(f, c, m, M, 2 * i - 2, j) && RangedAt(f, c, m, M, 2 * i - 1, j) && RangedAt(f, c, m, M, 2 * i, j);
      var w, s := RangedDown(m, M, f(3, 2 * i - 2, j), f(c, 2 * i - 2, j), f(3, 2 * i - 1, j), f(c, 2 * i - 1, j), f(3, 2 * i, j), f(c, 2 * i, j));
      RangedZero(m, M);
      assert g(3, i, j) == (if Inner(R, C, i, j) then w else 0.0) && g(c, i, j) == if Inner(R, C, i, j) then s else 0.0;
    }
  }

  lemma DownColRanged(e: Kernels<real>, exp: real -> real, c: int, m: real, M: real, f: Stage<real>, R: int, C: int, g: Stage<real>)
    requires e == SourceKernels(Reals(exp)) && DownColLaw(e, f, R, C, g) && AllRanged(f, c, m, M)
    ensures AllRanged(g, c, m, M)
  {
    forall i, j ensures RangedAt(g, c, m, M, i, j) {
      assert RangedAt(f, c, m, M, i, 2 * j - 2) && RangedAt(f, c, m, M, i, 2 * j - 1) && RangedAt(f, c, m, M, i, 2 * j);
      var w, s := RangedDown(m, M, f(3, i, 2 * j - 2), f(c, i, 2 * j - 2), f(3, i, 2 * j - 1), f(c, i, 2 * j - 1), f(3, i, 2 * j), f(c, i, 2 * j));
      RangedZero(m, M);
      assert g(3, i, j) == (if Inner(R, C, i, j) then w else 0.0) && g(c, i, j) == if Inner(R, C, i, j) then s else 0.0;
    }
  }

  lemma UpRowRanged(e: Kernels<real>, exp: real -> real, c: int, m: real, M: real, f: Stage<real>, R: int, C: int, g: Stage<real>)
    requires e == SourceKernels(Reals(exp)) && UpRowLaw(e, f, R, C, g) && AllRanged(f, c, m, M)
    ensures AllRanged(g, c, m, M)
  {
    forall i, j ensures RangedAt(g, c, m, M, i, j) {
      var u, v := (i + 1) / 2, (i + 2) / 2;
      assert RangedAt(f, c, m, M, u, j) && RangedAt(f, c, m, M, v, j);
      var w, s := RangedMean(m, M, f(3, u, j), f(c, u, j), f(3, v, j), f(c, v, j));
      RangedZero(m, M);
      assert g(3, i, j) == (if Inner(R, C, i, j) then w else 0.0) && g(c, i, j) == if Inner(R, C, i, j) then s else 0.0;
    }
  }

  function Mix(d: real, alpha: real, a: real, b: real): real { d + (1.0 - alpha) * ((a + b) / 2.0) }

  lemma MixRanged(m: real, M: real, d: real, e: real, w1: real, s1: real, w2: real, s2: real) returns (w: real, s: real)
    requires Ranged(m, M, d, e) && Ranged(m, M, w1, s1) && Ranged(m, M, w2, s2)
    ensures w == Mix(d, d, w1, w2) && s == Mix(e, d, s1, s2) && Ranged(m, M, w, s)
  {
    var x, y := RangedMean(m, M, w1, s1, w2, s2);
    w, s := RangedBlend(m, M, d, e, x, y);
  }

  lemma BlendIs(e: Kernels<real>, exp: real -> real, d: Stage<real>, h: Stage<real>, k: int, i: int, j: int)
    requires e == SourceKernels(Reals(exp))
    ensures Blend(e, d, h, k, i, j) == Mix(d(k, i, j), d(3, i, j), h(k, i, (j + 1) / 2), h(k, i, (j + 2) / 2))
  {
  }

  lemma BlendPixelRanged(c: int, m: real, M: real, d: Stage<real>, h: Stage<real>, i: int, j: int, u: int, v: int)
    returns (w: real, s: real)
    requires AllRanged(d, c, m, M) && AllRanged(h, c, m, M)
    ensures w == Mix(d(3, i, j), d(3, i, j), h(3, i, u), h(3, i, v)) && s == Mix(d(c, i, j), d(3, i, j), h(c, i, u), h(c, i, v))
    ensures Ranged(m, M, w, s)
  {
    assert RangedAt(d, c, m, M, i, j) && RangedAt(h, c, m, M, i, u) && RangedAt(h, c, m, M, i, v);
    w, s := MixRanged(m, M, d(3, i, j), d(c, i, j), h(3, i, u), h(c, i, u), h(3, i, v), h(c, i, v));
  }

  lemma BlendRanged(e: Kernels<real>, exp: real -> real, c: int, m: real, M: real, d: Stage<real>, h: Stage<real>, R: int, C: int, g: Stage<real>)
    requires e == SourceKernels(Reals(exp)) && BlendLaw(e, d, h, R, C, g) && AllRanged(d, c, m, M) && AllRanged(h, c, m, M)
    ensures AllRanged(g, c, m, M)
  {
    forall i, j ensures RangedAt(g, c, m, M, i, j) {
      var w, s := BlendPixelRanged(c, m, M, d, h, i, j, (j + 1) / 2, (j + 2) / 2);
      BlendIs(e, exp, d, h, 3, i, j);
      BlendIs(e, exp, d, h, c, i, j);
      RangedZero(m, M);
      assert g(3, i, j) == (if Inner(R, C, i, j) then w else 0.0) && g(c, i, j) == if Inner(R, C, i, j) then s else 0.0;
    }
  }

  lemma {:induction false} DownsRanged(e: Kernels<real>, exp: real -> real, c: int, m: real, M: real, s: Stages<real>, l: nat)
    requires e == SourceKernels(Reals(exp)) && Lawful(e, s) && Opaque(s.img, c, m, M) && l <= 9
    ensures AllRanged(s.d[l], c, m, M)
  {
    if l == 0 {
      PremultiplyRanged(e, exp, c, m, M, s.img, s.d[0]);
    } else {
      DownsRanged(e, exp, c, m, M, s, l - 1);
      assert LawfulDown(e, l - 1, s.d[l - 1], s.dx[l - 1], s.d[l - 1 + 1]);
      DownRowRanged(e, exp, c, m, M, s.d[l - 1], Rows(l), Cols(l - 1), s.dx[l - 1]);
      DownColRanged(e, exp, c, m, M, s.dx[l - 1], Rows(l), Cols(l), s.d[l]);
    }
  }

  lemma {:induction false} UpsRanged(e: Kernels<real>, exp: real -> real, c: int, m: real, M: real, s: Stages<real>, l: nat)
    requires e == SourceKernels(Reals(exp)) && Lawful(e, s) && Opaque(s.img, c, m, M) && l <= 9
    ensures AllRanged(s.up[l], c, m, M)
    decreases 9 - l
  {
    DownsRanged(e, exp, c, m, M, s, l);
    if l < 9 {
      UpsRanged(e, exp, c, m, M, s, l + 1);
      assert LawfulUp(e, l, s.up[l + 1], s.d[l], s.ux[l], s.up[l]);
      UpRowRanged(e, exp, c, m, M, s.up[l + 1], Rows(l), Cols(l + 1), s.ux[l]);
      BlendRanged(e, exp, c, m, M, s.d[l], s.ux[l], Rows(l), Cols(l), s.up[l]);
    }
  }

  /** Wherever the final alpha is positive, the colour is in the range of the opaque pixels. */
  lemma RangeKept(e: Kernels<real>, exp: real -> real, c: int, m: real, M: real, s: Stages<real>, i: int, j: int)
    requires e == SourceKernels(Reals(exp)) && Lawful(e, s) && Opaque(s.img, c, m, M) && s.up[0](3, i + 1, j + 1) > 0.0
    ensures m <= s.out(c, i, j) <= M
  {
    UpsRanged(e, exp, c, m, M, s, 0);
    assert RangedAt(s.up[0], c, m, M, i + 1, j + 1);
    Quotient(m, M, s.up[0](3, i + 1, j + 1), s.up[0](c, i + 1, j + 1));
  }

  lemma OpaqueBlended(e: Kernels<real>, exp: real -> real, s: Stages<real>, k: int, i: int, j: int)
    requires e == SourceKernels(Reals(exp)) && Lawful(e, s) && s.img(3, i, j) == 1.0 && Inner(Rows(0), Cols(0), i, j)
    ensures s.up[0](k, i, j) == s.img(k, i, j)
  {
    assert LawfulUp(e, 0, s.up[1], s.d[0], s.ux[0], s.up[0]);
    assert s.d[0](k, i, j) == s.img(k, i, j) && s.d[0](3, i, j) == 1.0;
    BlendIs(e, exp, s.d[0], s.ux[0], k, i, j);
    assert s.up[0](k, i, j) == Blend(e, s.d[0], s.ux[0], k, i, j);
  }

  /** An opaque pixel comes out as it went in. */
  lemma OpaqueKept(e: Kernels<real>, exp: real -> real, c: int, s: Stages<real>, i: int, j: int)
    requires e == SourceKernels(Reals(exp)) && Lawful(e, s) && s.img(3, i + 1, j + 1) == 1.0 && Image.Has(i, j)
    ensures s.out(c, i, j) == s.img(c, i + 1, j + 1)
  {
    OpaqueBlended(e, exp, s, c, i + 1, j + 1);
    OpaqueBlended(e, exp, s, 3, i + 1, j + 1);
  }

  /** Outside the image, where no program reads it, the pixels are taken as transparent. */
  function Framed(f: Stage<real>): Stage<real> {
    (k, i, j) => if Extent(0).Has(i, j) then f(k, i, j) else 0.0
  }

  /** So the tiled program keeps the range and the opaque pixels; `s` gives the alpha that it divides by. */
  method TiledInRange(e: Kernels<real>, exp: real -> real, img: Window<real>, stray: (int, int, int) -> real)
    returns (out: Window<real>, ghost s: Stages<real>)
    requires e == SourceKernels(Reals(exp)) && img.buf.Valid()
    ensures Lawful(e, s) && Known(img, 4, Extent(0), s.img) && CanStore(out, 3, Image)
    ensures forall k, i, j {:trigger s.img(k, i, j)} :: !Extent(0).Has(i, j) ==> s.img(k, i, j) == 0.0
    ensures forall c, m, M, i, j {:trigger Opaque(s.img, c, m, M), out.At(c, i, j)} ::
              0 <= c <= 2 && Opaque(s.img, c, m, M) && Image.Has(i, j) && s.up[0](3, i + 1, j + 1) > 0.0 ==> m <= out.At(c, i, j) <= M
    ensures forall c, i, j {:trigger out.At(c, i, j)} ::
              0 <= c <= 2 && Image.Has(i, j) && s.img(3, i + 1, j + 1) == 1.0 ==> out.At(c, i, j) == s.img(c, i + 1, j + 1)
  {
    ghost var pixels := Snapshot(img);
    s := MakeStages(e, Framed(pixels));
    out := InterpolateTiled.Tiled(e, img, stray, s);
    forall c, m, M, i, j {:trigger Opaque(s.img, c, m, M), out.At(c, i, j)}
      | 0 <= c <= 2 && Opaque(s.img, c, m, M) && Image.Has(i, j) && s.up[0](3, i + 1, j + 1) > 0.0
      ensures m <= out.At(c, i, j) <= M
    {
      RangeKept(e, exp, c, m, M, s, i, j);
      assert out.At(c, i, j) == s.out(c, i, j);
    }
    forall c, i, j | 0 <= c <= 2 && Image.Has(i, j) && s.img(3, i + 1, j + 1) == 1.0
      ensures out.At(c, i, j) == s.img(c, i + 1, j + 1)
    {
      OpaqueKept(e, exp, c, s, i, j);
      assert out.At(c, i, j) == s.out(c, i, j);
    }
  }
}
