/** laplacian_polymage.cpp as a whole, and its equality with laplacian_naive.cpp. */
module LaplacianEqual {
  import opened Arithmetic
  import opened Buffers
  import opened Nests
  import opened LaplacianSpec
  import opened LaplacianStages
  import opened LaplacianPyramid
  import opened LaplacianTiled
  import opened LaplacianNaive

  // The tile counts reach the last row and column. Several are tight.

  lemma DownRowCounts(R: int)
    requires R > 92
    ensures R / 2 - 2 <= 8 * ((R - 4) / 16) + 7
    ensures R / 4 - 2 <= 8 * ((R - 8) / 32) + 7
    ensures R / 8 - 2 <= 8 * ((R - 16) / 64) + 7
  {
  }

  lemma DownColCounts(C: int)
    requires C > 92
    ensures C / 2 - 2 <= 128 * ((C - 2) / 256) + 128
    ensures C / 4 - 2 <= 128 * ((C - 4) / 512) + 128
    ensures C / 8 - 2 <= 128 * ((C - 8) / 1024) + 128
  {
  }

  lemma OutRowCounts(R: int)
    requires R > 92
    ensures R / 4 - 14 <= 8 * ((R + 16) / 32 - 2) + 13
    ensures R / 4 - 14 <= 8 * ((R + 8) / 32 - 2) + 7
    ensures R / 2 - 30 <= 8 * ((R + 4) / 16 - 4) + 7
    ensures R - 62 <= 8 * ((R + 2) / 8 - 8) + 7
  {
  }

  lemma OutColCounts(C: int)
    requires C > 92
    ensures C / 8 - 6 <= 256 * ((C - 48) / 2048) + 255
    ensures C / 4 - 14 <= 256 * ((C - 48) / 1024) + 258
    ensures C / 2 - 30 <= 256 * ((C - 56) / 512) + 258
    ensures C - 62 <= 256 * ((C - 60) / 256) + 258
  {
  }

  /** a tiled level of a pyramid, through row tiles 0 .. rt and column tiles -1 .. ct */
  method TiledLevel<P(0, !new)>(e: Kernels<P>, R: int, C: int, l: nat, rt: int, ct: int, src: Window<P>, n: nat,
                                stray: (int, int, int) -> P, ghost f: Stage<P>, ghost fx: Stage<P>, ghost g: Stage<P>)
    returns (d: Window<P>)
    requires R > 92 && C > 92 && l <= 3 && DownRowLaw(e, f, fx) && DownColLaw(e, fx, g)
    requires Side(R, l + 1) - 2 <= 8 * rt + 7 && Side(C, l + 1) - 2 <= 128 * ct + 128 && -1 <= ct
    requires Known(src, n, Domain(R, C, l), f)
    ensures Known(d, n, Domain(R, C, l + 1), g) && fresh(d.buf.data)
  {
    Halves(R, C, l);
    d := DownTiled(e, src, n, rt, ct, Side(R, l + 1) - 2, Side(C, l) - 2, Side(C, l + 1) - 2, stray, Domain(R, C, l), f, fx, g);
  }

  method TiledTwoLevels<P(0, !new)>(e: Kernels<P>, R: int, C: int, w0: Window<P>, n: nat, stray: (int, int, int) -> P,
                                    ghost f0: Stage<P>, ghost x0: Stage<P>, ghost f1: Stage<P>, ghost x1: Stage<P>, ghost f2: Stage<P>)
    returns (w1: Window<P>, w2: Window<P>)
    requires R > 92 && C > 92
    requires DownRowLaw(e, f0, x0) && DownColLaw(e, x0, f1) && DownRowLaw(e, f1, x1) && DownColLaw(e, x1, f2)
    requires Known(w0, n, Domain(R, C, 0), f0)
    ensures Known(w1, n, Domain(R, C, 1), f1) && fresh(w1.buf.data)
    ensures Known(w2, n, Domain(R, C, 2), f2) && fresh(w2.buf.data)
  {
    DownRowCounts(R);
    DownColCounts(C);
    w1 := TiledLevel(e, R, C, 0, (R - 4) / 16, (C - 2) / 256, w0, n, stray, f0, x0, f1);
    w2 := TiledLevel(e, R, C, 1, (R - 8) / 32, (C - 4) / 512, w1, n, stray, f1, x1, f2);
  }

  /** The image's pyramid: laplacian_polymage.cpp:178-211, 233-266, 347-355, 396-402, 415-421, 432-438. */
  method InputPyramid<P(0, !new)>(e: Kernels<P>, R: int, C: int, w0: Window<P>, stray: (int, int, int) -> P,
                                  ghost f: seq<Stage<P>>, ghost x: seq<Stage<P>>)
    returns (y: Pyramid<P>)
    requires R > 92 && C > 92 && DownLaws(e, f, x)
    requires Known(w0, 1, Domain(R, C, 0), f[0])
    ensures y.w0 == w0 && Built(y, 1, R, C, f)
  {
    var w1, w2 := TiledTwoLevels(e, R, C, w0, 1, stray, f[0], x[0], f[1], x[1], f[2]);
    var w3, w4 := TwoLevels(e, R, C, 2, w2, 1, stray, f[2], x[2], f[3], x[3], f[4]);
    y := Pyramid(w0, w1, w2, w3, w4);
  }

  /** Level 3 of the remapped images is tiled, level 4 is not: laplacian_polymage.cpp:356-395, 403-414, 422-431. */
  method TopLevels<P(0, !new)>(e: Kernels<P>, R: int, C: int, w2: Window<P>, stray: (int, int, int) -> P,
                               ghost f2: Stage<P>, ghost x2: Stage<P>, ghost f3: Stage<P>, ghost x3: Stage<P>, ghost f4: Stage<P>)
    returns (w3: Window<P>, w4: Window<P>)
    requires R > 92 && C > 92
    requires DownRowLaw(e, f2, x2) && DownColLaw(e, x2, f3) && DownRowLaw(e, f3, x3) && DownColLaw(e, x3, f4)
    requires Known(w2, 4, Domain(R, C, 2), f2)
    ensures Known(w3, 4, Domain(R, C, 3), f3) && fresh(w3.buf.data)
    ensures Known(w4, 4, Domain(R, C, 4), f4) && fresh(w4.buf.data)
  {
    DownRowCounts(R);
    DownColCounts(C);
    w3 := TiledLevel(e, R, C, 2, (R - 16) / 64, (C - 8) / 1024, w2, 4, stray, f2, x2, f3);
    w4 := NextLevel(e, R, C, 3, w3, 4, stray, f3, x3, f4);
  }

  /** The pyramids of the remapped images: laplacian_polymage.cpp:267-346, 356-395, 403-414, 422-431. */
  method RemappedPyramid<P(0, !new)>(e: Kernels<P>, R: int, C: int, w0: Window<P>, stray: (int, int, int) -> P,
                                     ghost f: seq<Stage<P>>, ghost x: seq<Stage<P>>)
    returns (y: Pyramid<P>)
    requires R > 92 && C > 92 && DownLaws(e, f, x)
    requires Known(w0, 4, Domain(R, C, 0), f[0])
    ensures y.w0 == w0 && Built(y, 4, R, C, f)
  {
    var w1, w2 := TiledTwoLevels(e, R, C, w0, 4, stray, f[0], x[0], f[1], x[1], f[2]);
    var w3, w4 := TopLevels(e, R, C, w2, stray, f[2], x[2], f[3], x[3], f[4]);
    y := Pyramid(w0, w1, w2, w3, w4);
  }

  /** The top level upsampled along rows into a full-size buffer: laplacian_polymage.cpp:482-515. */
  method UpTop<P(0, !new)>(e: Kernels<P>, R: int, C: int, src: Window<P>, n: nat, stray: (int, int, int) -> P,
                           ghost have: Box, ghost f: Stage<P>, ghost g: Stage<P>)
    returns (ux: Window<P>)
    requires R > 92 && C > 92 && UpRowLaw(e, f, g)
    requires Known(src, n, have, f) && have.Contains(OutDomain(R, C, 4))
    ensures Known(ux, n, Box(3, R / 8 - 6, 1, C / 16 - 2), g) && fresh(ux.buf.data)
  {
    CoarseFits(R, C, 3);
    var buf := new Buffer(n, R / 8 - 8, C / 16 - 2, stray);
    ux := Window(buf, 3, 1);
    UpRowPairs(e, src, ux, n, Box(3, R / 8 - 6, 1, C / 16 - 2), i => R >= 8 * i + 56, have, f, g);
  }

  /** Level 3, left upsampled along rows for level 2: laplacian_polymage.cpp:482-632. */
  method Level3<P(0, !new)>(e: Kernels<P>, R: int, C: int, in3: Window<P>, g3: Window<P>, g4: Window<P>, out4: Window<P>,
                            stray: (int, int, int) -> P, ghost s: Stages<P>)
    returns (uxOut2: Window<P>)
    requires Acceptable(e, s, R, C)
    requires Known(in3, 1, Domain(R, C, 3), s.inG[3]) && Known(g3, 4, Domain(R, C, 3), s.g[3])
    requires Known(g4, 4, Domain(R, C, 4), s.g[4]) && Known(out4, 1, OutDomain(R, C, 4), s.outG[4])
    ensures Known(uxOut2, 1, Box(7, R / 4 - 14, 3, C / 8 - 6), s.outUp[2]) && fresh(uxOut2.buf.data)
  {
    assert LawfulOut(e, s, 2) && LawfulOut(e, s, 3);
    OutRowCounts(R);
    OutColCounts(C);
    CoarseFits(R, C, 3);
    CoarseFits(R, C, 2);
    OutFits(R, C, 3);
    var uxOut := UpTop(e, R, C, out4, 1, stray, OutDomain(R, C, 4), s.outG[4], s.outUp[3]);
    var ux := UpTop(e, R, C, g4, 4, stray, Domain(R, C, 4), s.g[4], s.up[3]);
    uxOut2 := ShiftedOutTiled(e, ShiftedSources(in3, g3, ux, uxOut), OutDomain(R, C, 3), Box(7, R / 4 - 14, 3, C / 8 - 6),
                              (R + 16) / 32 - 2, (C - 48) / 2048, stray, Domain(R, C, 3), OutDomain(R, C, 4), s);
  }

  /** Output level l from tiles t0 - 1 .. rt, 0 .. ct. */
  method OutLevel<P(0, !new)>(e: Kernels<P>, R: int, C: int, l: nat, from: Sources<P>, upsampled: bool,
                              t0: int, rt: int, ct: int, stray: (int, int, int) -> P, ghost s: Stages<P>)
    returns (dst: Window<P>)
    requires l <= 2 && Acceptable(e, s, R, C)
    requires Known(from.input, 1, Domain(R, C, l), s.inG[l]) && Known(from.fine, 4, Domain(R, C, l), s.g[l])
    requires Known(from.coarse, 4, Domain(R, C, l + 1), s.g[l + 1])
    requires var b, a := OutDomain(R, C, l), OutDomain(R, C, l + 1);
      && Known(from.above, 1, if upsampled then Box(b.r0, b.r1, a.c0, a.c1) else a, if upsampled then s.outUp[l] else s.outG[l + 1])
      && b.r0 == 8 * t0 - 1 && b.r1 <= 8 * rt + 7 && b.c1 <= 256 * ct + 258 && -1 <= ct && t0 - 1 <= rt
    ensures Known(dst, 1, OutDomain(R, C, l), s.outG[l]) && CanStore(dst, 1, OutDomain(R, C, l)) && fresh(dst.buf.data)
  {
    assert LawfulOut(e, s, l);
    OutFits(R, C, l);
    CoarseFits(R, C, l);
    dst := OutTiled(e, from, upsampled, OutDomain(R, C, l), OutDomain(R, C, l + 1), t0, rt, ct, stray,
                    Domain(R, C, l), Domain(R, C, l + 1), s, l);
  }

  /** laplacian_polymage.cpp:439-1055 */
  method TiledCollapse<P(0, !new)>(e: Kernels<P>, R: int, C: int, input: Pyramid<P>, g: Pyramid<P>,
                                   stray: (int, int, int) -> P, ghost s: Stages<P>)
    returns (out: Window<P>)
    requires Acceptable(e, s, R, C) && Built(input, 1, R, C, s.inG) && Built(g, 4, R, C, s.g)
    ensures Known(out, 1, OutDomain(R, C, 0), s.outG[0]) && CanStore(out, 1, OutDomain(R, C, 0))
  {
    OutRowCounts(R);
    OutColCounts(C);
    var out4 := TopLevel(e, R, C, input.w4, g.w4, stray, s.inG[4], s.g[4], s.outG[4]);
    var uxOut2 := Level3(e, R, C, input.w3, g.w3, g.w4, out4, stray, s);
    var out2 := OutLevel(e, R, C, 2, Sources(input.w2, g.w2, g.w3, uxOut2), true,
                         1, (R + 8) / 32 - 2, (C - 48) / 1024, stray, s);
    var out1 := OutLevel(e, R, C, 1, Sources(input.w1, g.w1, g.w2, out2), false,
                         2, (R + 4) / 16 - 4, (C - 56) / 512, stray, s);
    out := OutLevel(e, R, C, 0, Sources(input.w0, g.w0, g.w1, out1), false,
                    4, (R + 2) / 8 - 8, (C - 60) / 256, stray, s);
  }

  /** laplacian_polymage.cpp:98-101 and 178-1055 */
  method Tiled<P(0, !new)>(e: Kernels<P>, R: int, C: int, img: Window<P>, stray: (int, int, int) -> P, ghost s: Stages<P>)
    returns (out: Window<P>)
    requires Acceptable(e, s, R, C) && Known(img, 1, Domain(R, C, 0), s.inG[0])
    ensures Known(out, 1, OutDomain(R, C, 0), s.outG[0]) && CanStore(out, 1, OutDomain(R, C, 0))
  {
    assert DownLaws(e, s.inG, s.inRow) && DownLaws(e, s.g, s.row) by { AllDown(e, s); }
    var lut := FillTable(e, stray);
    var g0 := FillRemapped(e, R, C, img, lut, stray, s.inG[0], s.g[0]);
    var input := InputPyramid(e, R, C, img, stray, s.inG, s.inRow);
    var g := RemappedPyramid(e, R, C, g0, stray, s.g, s.row);
    out := TiledCollapse(e, R, C, input, g, stray, s);
  }

  /** The two pipelines give the same grey result, for every arithmetic and every image, whatever lies outside the
      rows of scratchpads and was left in them. */
  method TiledEqualsNaive<P(0, !new)>(e: Kernels<P>, R: int, C: int, img: Window<P>,
                                      stray: (int, int, int) -> P, stray': (int, int, int) -> P)
    returns (tiled: Window<P>, naive: Window<P>)
    requires R > 92 && C > 92 && img.buf.Valid()
    requires forall v :: 0 <= e.level(v) <= 2
    requires forall i, j :: 0 <= i < R && 0 <= j < C ==> 0 <= e.bin(img.At(0, i, j)) < 768
    ensures CanStore(tiled, 1, OutDomain(R, C, 0)) && CanStore(naive, 1, OutDomain(R, C, 0))
    ensures forall i, j :: 31 <= i <= R - 62 && 31 <= j <= C - 62 ==> tiled.At(0, i, j) == naive.At(0, i, j)
  {
    ghost var pixels := Snapshot(img);
    ghost var s := MakeStages(e, pixels);
    tiled := Tiled(e, R, C, img, stray, s);
    naive := Naive(e, R, C, img, stray', s);
  }

  /** In any arithmetic the source's clamps keep planes in range, and bins but for 768, which needs an image value that
      scales to 768 or more. */
  lemma SourceClamps<P>(ar: Arith<P>, alpha: P, beta: P, v: P)
    ensures var e := SourceKernels(ar, alpha, beta);
            && 0 <= e.level(v) <= 2 && 0 <= e.bin(v) <= 768
            && (e.bin(v) < 768 <==> ar.toInt(ar.mul(v, ar.lit(768.0))) < 768)
  {
  }

  /** Over the reals, bins of grey values below 1 are in range. */
  lemma SourceInRange(exp: real -> real, alpha: real, beta: real, v: real)
    ensures 0 <= SourceKernels(Reals(exp), alpha, beta).level(v) <= 2
    ensures v < 1.0 ==> 0 <= SourceKernels(Reals(exp), alpha, beta).bin(v) < 768
  {
    if 0.0 <= v < 1.0 {
      assert v * 768.0 < 768.0;
    }
  }

  /** The tiled code with alpha = 0 and beta = 1, over the reals, copies the grey image. */
  method TiledCopies(R: int, C: int, img: Window<real>, exp: real -> real, stray: (int, int, int) -> real)
    returns (tiled: Window<real>)
    requires R > 92 && C > 92 && img.buf.Valid()
    requires forall i, j :: 0 <= i < R && 0 <= j < C ==> 0.0 <= img.At(0, i, j) < 1.0
    ensures CanStore(tiled, 1, OutDomain(R, C, 0))
    ensures forall i, j :: 31 <= i <= R - 62 && 31 <= j <= C - 62 ==> tiled.At(0, i, j) == old(img.At(0, i, j))
  {
    var e := SourceKernels(Reals(exp), 0.0, 1.0);
    ghost var pixels := Snapshot(img);
    ghost var s := MakeStages(e, pixels);
    forall v ensures 0 <= e.level(v) <= 2 {
      SourceInRange(exp, 0.0, 1.0, v);
    }
    forall i, j | 0 <= i < R && 0 <= j < C ensures 0 <= e.bin(s.inG[0](0, i, j)) < 768 {
      SourceInRange(exp, 0.0, 1.0, pixels(0, i, j));
    }
    RealsNeutral(exp);
    Identity(e, s, 0);
    tiled := Tiled(e, R, C, img, stray, s);
  }
}
