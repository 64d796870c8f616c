/** The buffers both pipelines share, and the stage-by-stage pipeline of laplacian_naive.cpp. */
module LaplacianPyramid {
  import opened Buffers
  import opened Nests
  import opened LaplacianSpec
  import opened LaplacianStages

  /** side n of the image at level l */
  function Side(n: int, l: nat): int {
    if l == 0 then n else if l == 1 then n / 2 else if l == 2 then n / 4 else if l == 3 then n / 8 else n / 16
  }

  /** where level l of a Gaussian pyramid is defined */
  function Domain(R: int, C: int, l: nat): Box {
    if l == 0 then Box(0, R - 1, 0, C - 1) else Box(1, Side(R, l) - 2, 1, Side(C, l) - 2)
  }

  /** where level l of the output pyramid is defined */
  function OutDomain(R: int, C: int, l: nat): Box {
    if l == 0 then Box(31, R - 62, 31, C - 62)
    else if l == 1 then Box(15, R / 2 - 30, 15, C / 2 - 30)
    else if l == 2 then Box(7, R / 4 - 14, 7, C / 4 - 14)
    else if l == 3 then Box(3, R / 8 - 6, 3, C / 8 - 6)
    else Box(1, R / 16 - 2, 1, C / 16 - 2)
  }

  /** the buffers of a Gaussian pyramid, finest first */
  datatype Pyramid<!P(0)> = Pyramid(w0: Window<P>, w1: Window<P>, w2: Window<P>, w3: Window<P>, w4: Window<P>)

  /** Every level of y holds its stage. */
  ghost predicate Built<P(0)>(y: Pyramid<P>, n: nat, R: int, C: int, f: seq<Stage<P>>)
    requires |f| == 5
    reads y.w0.buf.data, y.w1.buf.data, y.w2.buf.data, y.w3.buf.data, y.w4.buf.data
  {
    && Known(y.w0, n, Domain(R, C, 0), f[0])
    && Known(y.w1, n, Domain(R, C, 1), f[1])
    && Known(y.w2, n, Domain(R, C, 2), f[2])
    && Known(y.w3, n, Domain(R, C, 3), f[3])
    && Known(y.w4, n, Domain(R, C, 4), f[4])
  }

  /** What the source relies on: a pixel's planes are 0 .. 3, and pixels are below 1, so that no table access is
      past the end. */
  ghost predicate Acceptable<P(!new)>(e: Kernels<P>, s: Stages<P>, R: int, C: int) {
    && R > 92 && C > 92 && Lawful(e, s)
    && (forall v :: 0 <= e.level(v) <= 2)
    && (forall i, j :: 0 <= i < R && 0 <= j < C ==> 0 <= e.bin(s.inG[0](0, i, j)) < 768)
  }

  /** the lookup table: laplacian_naive.cpp:241-244, laplacian_polymage.cpp:98-101 */
  method FillTable<P(0, !new)>(e: Kernels<P>, stray: (int, int, int) -> P) returns (lut: Window<P>)
    ensures HasTable(e, lut) && fresh(lut.buf.data)
  {
    var buf := new Buffer(1, 1, 1536, stray);
    lut := Window(buf, 0, 0);
    FillBox(lut, 1, Box(0, 0, 0, 1535), (k, i, n) => e.table(n), Box(0, 0, 0, 1535), (k, i, n) => e.table(n));
  }

  ghost predicate HasTable<P(0)>(e: Kernels<P>, lut: Window<P>)
    reads lut.buf.data
  {
    lut.buf.Valid() && forall n :: 0 <= n < 1536 ==> lut.At(0, 0, n) == e.table(n)
  }

  function LookUp<P(0)>(e: Kernels<P>, lut: Window<P>, k: int, v: P): (r: P)
    requires lut.buf.Valid()
    reads lut.buf.data
    ensures HasTable(e, lut) && 0 <= k < 4 && 0 <= e.bin(v) < 768 ==> r == RemapPixel(e, k, v)
  {
    e.remap(k, v, lut.At(0, 0, e.bin(v) - 256 * k + 768))
  }

  /** the four remapped images: laplacian_naive.cpp:255-275, laplacian_polymage.cpp:212-232 */
  method FillRemapped<P(0, !new)>(e: Kernels<P>, R: int, C: int, img: Window<P>, lut: Window<P>, stray: (int, int, int) -> P,
                                  ghost f: Stage<P>, ghost g: Stage<P>)
    returns (g0: Window<P>)
    requires R > 92 && C > 92 && RemapLaw(e, f, g)
    requires forall i, j :: 0 <= i < R && 0 <= j < C ==> 0 <= e.bin(f(0, i, j)) < 768
    requires Known(img, 1, Domain(R, C, 0), f)
    requires HasTable(e, lut)
    ensures Known(g0, 4, Domain(R, C, 0), g) && fresh(g0.buf.data)
  {
    var buf := new Buffer(4, R, C, stray);
    g0 := Window(buf, 0, 0);
    FillBox(g0, 4, Box(0, R - 1, 0, C - 1),
            (k, i, j) requires img.buf.Valid() && lut.buf.Valid() reads img.buf.data, lut.buf.data =>
              LookUp(e, lut, k, img.At(0, i, j)),
            Domain(R, C, 0), g);
  }

  /** A level built stage by stage over full-size buffers. `rowHi`, `colHi` end the level and `fineHi` the
      columns of the row-filtered intermediate: laplacian_naive.cpp:276-299 and its copies, and
      laplacian_polymage.cpp:348-355, 396-438. */
  method NaiveLevel<P(0, !new)>(e: Kernels<P>, src: Window<P>, n: nat, rowHi: int, fineHi: int, colHi: int,
                          stray: (int, int, int) -> P,
                          ghost have: Box, ghost f: Stage<P>, ghost fx: Stage<P>, ghost g: Stage<P>)
    returns (d: Window<P>)
    requires 0 <= rowHi && 0 <= fineHi && 0 <= colHi && 2 * colHi + 2 <= fineHi
    requires Known(src, n, have, f) && have.Contains(Box(1, 2 * rowHi + 2, 1, fineHi))
    requires DownRowLaw(e, f, fx) && DownColLaw(e, fx, g)
    ensures Known(d, n, Box(1, rowHi, 1, colHi), g) && fresh(d.buf.data)
  {
    var dxBuf := new Buffer(n, rowHi, fineHi, stray);
    var dx := Window(dxBuf, 1, 1);
    var dBuf := new Buffer(n, rowHi, colHi, stray);
    d := Window(dBuf, 1, 1);
    DownRows(e, src, dx, n, Box(1, rowHi, 1, fineHi), have, f, fx);
    DownCols(e, dx, d, n, Box(1, rowHi, 1, colHi), Box(1, rowHi, 1, fineHi), fx, g);
  }

  lemma Halves(R: int, C: int, l: nat)
    requires R > 92 && C > 92 && l <= 3
    ensures Side(R, l + 1) == Side(R, l) / 2 && Side(C, l + 1) == Side(C, l) / 2
    ensures 5 <= Side(R, l + 1) && 5 <= Side(C, l + 1)
  {
  }

  /** Level l + 1 from level l, whole. */
  method NextLevel<P(0, !new)>(e: Kernels<P>, R: int, C: int, l: nat, src: Window<P>, n: nat, stray: (int, int, int) -> P,
                               ghost f: Stage<P>, ghost fx: Stage<P>, ghost g: Stage<P>)
    returns (d: Window<P>)
    requires R > 92 && C > 92 && l <= 3 && DownRowLaw(e, f, fx) && DownColLaw(e, fx, g)
    requires Known(src, n, Domain(R, C, l), f)
    ensures Known(d, n, Domain(R, C, l + 1), g) && fresh(d.buf.data)
  {
    Halves(R, C, l);
    d := NaiveLevel(e, src, n, Side(R, l + 1) - 2, Side(C, l) - 2, Side(C, l + 1) - 2, stray, Domain(R, C, l), f, fx, g);
  }

  /** one upsampled row; `far` is the row's second coarse neighbour, as the code at hand spells it */
  method UpRowAt<P(0, !new)>(e: Kernels<P>, src: Window<P>, dst: Window<P>, k: int, i: int, far: int, c0: int, c1: int,
                             ghost n: nat, ghost have: Box, ghost f: Stage<P>, ghost g: Stage<P>)
    requires src.buf.Valid() && dst.buf.Valid() && dst.buf.data != src.buf.data
    requires 0 <= k < n && far == Far(i) && forall j :: c0 <= j <= c1 ==> dst.Has(k, i, j)
    requires Holds(src, n, have, f) && forall j :: c0 <= j <= c1 ==> have.Has(far, j) && have.Has(i / 2, j)
    requires UpRowLaw(e, f, g)
    modifies dst.buf.data
    ensures forall j {:trigger dst.At(k, i, j)} :: c0 <= j <= c1 ==> dst.At(k, i, j) == g(k, i, j)
    ensures forall k', i', j {:trigger dst.At(k', i', j)} :: k' != k || i' != i ==> dst.At(k', i', j) == old(dst.At(k', i', j))
  {
    FillRow(dst, k, i, Each(c0, c1),
            (k', i', j) requires src.buf.Valid() reads src.buf.data => e.mix(src.At(k', far, j), src.At(k', i' / 2, j)),
            Box(i, i, c0, c1), g);
  }

  /** The row pairs that the untiled upsampling walks in one plane: the odd row i, then, guarded, the even row
      i + 1. laplacian_naive.cpp:429-448 and its copies; laplacian_polymage.cpp:482-515. */
  method UpPlane<P(0, !new)>(e: Kernels<P>, src: Window<P>, dst: Window<P>, k: int, box: Box, guard: int -> bool,
                             ghost n: nat, ghost have: Box, ghost f: Stage<P>, ghost g: Stage<P>)
    requires src.buf.Valid() && CanStore(dst, n, box) && dst.buf.data != src.buf.data && 0 <= k < n
    requires box.r0 % 2 == 1 && forall i :: guard(i) <==> i + 1 <= box.r1
    requires Holds(src, n, have, f) && have.Contains(Box(CoarseLo(box.r0), CoarseHi(box.r1), box.c0, box.c1))
    requires UpRowLaw(e, f, g)
    modifies dst.buf.data
    ensures forall i, j {:trigger dst.At(k, i, j)} :: box.Has(i, j) ==> dst.At(k, i, j) == g(k, i, j)
    ensures forall k', i, j {:trigger dst.At(k', i, j)} :: k' != k ==> dst.At(k', i, j) == old(dst.At(k', i, j))
  {
    CoarseRange(box.r0, box.r1);
    var i := box.r0;
    while i <= box.r1
      invariant i >= box.r0 && i % 2 == 1
      invariant forall i', j {:trigger dst.At(k, i', j)} :: i' < i && box.Has(i', j) ==> dst.At(k, i', j) == g(k, i', j)
      invariant forall k', i', j {:trigger dst.At(k', i', j)} :: k' != k ==> dst.At(k', i', j) == old(dst.At(k', i', j))
    {
      PairFar(i);
      UpRowAt(e, src, dst, k, i, i / 2 + 1, box.c0, box.c1, n, have, f, g);
      if guard(i) {
        UpRowAt(e, src, dst, k, i + 1, (i + 1) / 2 - 1, box.c0, box.c1, n, have, f, g);
      }
      i := i + 2;
    }
  }

  lemma PairFar(i: int)
    requires i % 2 == 1
    ensures Far(i) == i / 2 + 1 && Far(i + 1) == (i + 1) / 2 - 1 && (i + 2) % 2 == 1
  {
  }

  method UpRowPairs<P(0, !new)>(e: Kernels<P>, src: Window<P>, dst: Window<P>, n: nat, box: Box, guard: int -> bool,
                                ghost have: Box, ghost f: Stage<P>, ghost g: Stage<P>)
    requires src.buf.Valid() && CanStore(dst, n, box) && dst.buf.data != src.buf.data
    requires box.r0 % 2 == 1 && forall i :: guard(i) <==> i + 1 <= box.r1
    requires Holds(src, n, have, f) && have.Contains(Box(CoarseLo(box.r0), CoarseHi(box.r1), box.c0, box.c1))
    requires UpRowLaw(e, f, g)
    modifies dst.buf.data
    ensures Holds(dst, n, box, g)
  {
    var k := 0;
    while k < n
      invariant 0 <= k <= n
      invariant Holds(dst, k, box, g)
    {
      UpPlane(e, src, dst, k, box, guard, n, have, f, g);
      k := k + 1;
    }
  }

  /** Each output level fits in its Gaussian level, ... */
  lemma OutFits(R: int, C: int, l: nat)
    requires R > 92 && C > 92 && l <= 3
    ensures Domain(R, C, l).Contains(OutDomain(R, C, l)) && Domain(R, C, l + 1).Contains(OutDomain(R, C, l + 1))
  {
  }

  /** ... and its coarse neighbours in the output level above. */
  lemma CoarseFits(R: int, C: int, l: nat)
    requires R > 92 && C > 92 && l <= 3
    ensures var b, a := OutDomain(R, C, l), OutDomain(R, C, l + 1);
            && b.r0 % 2 == 1 && b.r0 <= b.r1 + 1 && b.c0 <= b.c1 + 1 && a.c0 <= a.c1 + 1
            && a.c0 <= CoarseLo(b.c0) && CoarseHi(b.c1) <= a.c1 && a.r0 <= CoarseLo(b.r0) && CoarseHi(b.r1) <= a.r1
  {
  }

  /** The top output level: laplacian_naive.cpp:471-513, laplacian_polymage.cpp:439-481. */
  method TopLevel<P(0, !new)>(e: Kernels<P>, R: int, C: int, in4: Window<P>, g4: Window<P>, stray: (int, int, int) -> P,
                              ghost f: Stage<P>, ghost g: Stage<P>, ghost out: Stage<P>)
    returns (out4: Window<P>)
    requires R > 92 && C > 92 && PickLaw(e, f, g, out) && forall v :: 0 <= e.level(v) <= 2
    requires Known(in4, 1, Domain(R, C, 4), f) && Known(g4, 4, Domain(R, C, 4), g)
    ensures Known(out4, 1, OutDomain(R, C, 4), out) && fresh(out4.buf.data)
  {
    var buf := new Buffer(1, R / 16 - 2, C / 16 - 2, stray);
    out4 := Window(buf, 1, 1);
    PickPlanes(e, in4, g4, out4, Box(1, R / 16 - 2, 1, C / 16 - 2), Domain(R, C, 4), Domain(R, C, 4), f, g, out);
  }
}

module LaplacianNaive {
  import opened Buffers
  import opened Nests
  import opened LaplacianSpec
  import opened LaplacianStages
  import opened LaplacianPyramid

  method TwoLevels<P(0, !new)>(e: Kernels<P>, R: int, C: int, l: nat, w0: Window<P>, n: nat, stray: (int, int, int) -> P,
                               ghost f0: Stage<P>, ghost x0: Stage<P>, ghost f1: Stage<P>, ghost x1: Stage<P>, ghost f2: Stage<P>)
    returns (w1: Window<P>, w2: Window<P>)
    requires R > 92 && C > 92 && l <= 2
    requires DownRowLaw(e, f0, x0) && DownColLaw(e, x0, f1) && DownRowLaw(e, f1, x1) && DownColLaw(e, x1, f2)
    requires Known(w0, n, Domain(R, C, l), f0)
    ensures Known(w1, n, Domain(R, C, l + 1), f1) && fresh(w1.buf.data)
    ensures Known(w2, n, Domain(R, C, l + 2), f2) && fresh(w2.buf.data)
  {
    w1 := NextLevel(e, R, C, l, w0, n, stray, f0, x0, f1);
    w2 := NextLevel(e, R, C, l + 1, w1, n, stray, f1, x1, f2);
  }

  /** The levels over a finest one: laplacian_naive.cpp:276-428 and 449-455, for the image and for its remapped
      copies. */
  method NaivePyramid<P(0, !new)>(e: Kernels<P>, R: int, C: int, w0: Window<P>, n: nat, stray: (int, int, int) -> P,
                                  ghost f: seq<Stage<P>>, ghost x: seq<Stage<P>>)
    returns (y: Pyramid<P>)
    requires R > 92 && C > 92 && DownLaws(e, f, x)
    requires Known(w0, n, Domain(R, C, 0), f[0])
    ensures y.w0 == w0 && Built(y, n, R, C, f)
  {
    var w1, w2 := TwoLevels(e, R, C, 0, w0, n, stray, f[0], x[0], f[1], x[1], f[2]);
    var w3, w4 := TwoLevels(e, R, C, 2, w2, n, stray, f[2], x[2], f[3], x[3], f[4]);
    y := Pyramid(w0, w1, w2, w3, w4);
  }

  /** One Laplacian level of the remapped images; the level is `box`, and the half-width intermediate spans the
      columns lo .. hi of the coarser level. laplacian_naive.cpp:429-448, 456-470 for level 3, and copies. */
  method NaiveDetails<P(0, !new)>(e: Kernels<P>, fine: Window<P>, coarse: Window<P>,
                                  box: Box, lo: int, hi: int, guard: int -> bool, stray: (int, int, int) -> P,
                                  ghost haveFine: Box, ghost haveCoarse: Box,
                                  ghost f: Stage<P>, ghost above: Stage<P>, ghost up: Stage<P>, ghost lap: Stage<P>)
    returns (u: Window<P>)
    requires UpRowLaw(e, above, up) && DetailLaw(e, f, up, lap)
    requires Known(fine, 4, haveFine, f) && haveFine.Contains(box) && Known(coarse, 4, haveCoarse, above)
    requires haveCoarse.Contains(Box(CoarseLo(box.r0), CoarseHi(box.r1), lo, hi))
    requires box.r0 % 2 == 1 && forall i :: guard(i) <==> i + 1 <= box.r1
    requires box.r0 <= box.r1 + 1 && box.c0 <= box.c1 + 1 && lo <= hi + 1
    requires lo <= CoarseLo(box.c0) && CoarseHi(box.c1) <= hi
    ensures Known(u, 4, box, lap) && fresh(u.buf.data)
  {
    var rows, cols := box.r1 - box.r0 + 1, box.c1 - box.c0 + 1;
    var half := Box(box.r0, box.r1, lo, hi);
    var uxBuf := new Buffer(4, rows, hi - lo + 1, stray);
    var ux := Window(uxBuf, box.r0, lo);
    UpRowPairs(e, coarse, ux, 4, half, guard, haveCoarse, above, up);
    var uBuf := new Buffer(4, rows, cols, stray);
    u := Window(uBuf, box.r0, box.c0);
    Details(e, fine, ux, u, 4, box, haveFine, half, f, up, lap);
  }

  /** The output level above, upsampled, plus this level's details: laplacian_naive.cpp:557-570, 591-600 for level 3,
      and copies. */
  method NaiveAdd<P(0, !new)>(e: Kernels<P>, outL: Window<P>, outAbove: Window<P>,
                              box: Box, lo: int, hi: int, guard: int -> bool, stray: (int, int, int) -> P,
                              ghost haveOut: Box,
                              ghost l: Stage<P>, ghost above: Stage<P>, ghost up: Stage<P>, ghost g: Stage<P>)
    returns (out: Window<P>)
    requires UpRowLaw(e, above, up) && CollapseLaw(e, l, up, g)
    requires Known(outL, 1, box, l) && Known(outAbove, 1, haveOut, above)
    requires haveOut.Contains(Box(CoarseLo(box.r0), CoarseHi(box.r1), lo, hi))
    requires box.r0 % 2 == 1 && forall i :: guard(i) <==> i + 1 <= box.r1
    requires box.r0 <= box.r1 + 1 && box.c0 <= box.c1 + 1 && lo <= hi + 1
    requires lo <= CoarseLo(box.c0) && CoarseHi(box.c1) <= hi
    ensures Known(out, 1, box, g) && CanStore(out, 1, box) && fresh(out.buf.data)
  {
    var rows, cols := box.r1 - box.r0 + 1, box.c1 - box.c0 + 1;
    var half := Box(box.r0, box.r1, lo, hi);
    var uxBuf := new Buffer(1, rows, hi - lo + 1, stray);
    var ux := Window(uxBuf, box.r0, lo);
    UpRowPairs(e, outAbove, ux, 1, half, guard, haveOut, above, up);
    var outBuf := new Buffer(1, rows, cols, stray);
    out := Window(outBuf, box.r0, box.c0);
    Collapse(e, outL, ux, out, box, box, half, l, up, g);
  }

  /** One output level: details, the picked planes, the sum. */
  method NaiveOutLevel<P(0, !new)>(e: Kernels<P>, R: int, C: int, l: nat,
                                   input: Window<P>, fine: Window<P>, coarse: Window<P>, outAbove: Window<P>,
                                   lo: int, hi: int, guard: int -> bool, stray: (int, int, int) -> P,
                                   ghost s: Stages<P>)
    returns (out: Window<P>)
    requires R > 92 && C > 92 && s.Shaped() && l <= 3 && LawfulOut(e, s, l) && forall v :: 0 <= e.level(v) <= 2
    requires Known(input, 1, Domain(R, C, l), s.inG[l]) && Known(fine, 4, Domain(R, C, l), s.g[l])
    requires Known(coarse, 4, Domain(R, C, l + 1), s.g[l + 1]) && Known(outAbove, 1, OutDomain(R, C, l + 1), s.outG[l + 1])
    requires lo == OutDomain(R, C, l + 1).c0 && hi == OutDomain(R, C, l + 1).c1
    requires forall i :: guard(i) <==> i + 1 <= OutDomain(R, C, l).r1
    ensures Known(out, 1, OutDomain(R, C, l), s.outG[l]) && CanStore(out, 1, OutDomain(R, C, l)) && fresh(out.buf.data)
  {
    var box := OutDomain(R, C, l);
    OutFits(R, C, l);
    CoarseFits(R, C, l);
    var u := NaiveDetails(e, fine, coarse, box, lo, hi, guard, stray, Domain(R, C, l), Domain(R, C, l + 1),
                          s.g[l], s.g[l + 1], s.up[l], s.lap[l]);
    var outLBuf := new Buffer(1, box.r1 - box.r0 + 1, box.c1 - box.c0 + 1, stray);
    var outL := Window(outLBuf, box.r0, box.c0);
    PickPlanes(e, input, u, outL, box, Domain(R, C, l), box, s.inG[l], s.lap[l], s.outL[l]);
    out := NaiveAdd(e, outL, outAbove, box, lo, hi, guard, stray, OutDomain(R, C, l + 1),
                    s.outL[l], s.outG[l + 1], s.outUp[l], s.outG[l]);
  }

  /** the output levels, coarsest first: laplacian_naive.cpp:429-907 */
  method NaiveCollapse<P(0, !new)>(e: Kernels<P>, R: int, C: int, input: Pyramid<P>, g: Pyramid<P>,
                                   stray: (int, int, int) -> P, ghost s: Stages<P>)
    returns (out: Window<P>)
    requires Acceptable(e, s, R, C) && Built(input, 1, R, C, s.inG) && Built(g, 4, R, C, s.g)
    ensures Known(out, 1, OutDomain(R, C, 0), s.outG[0]) && CanStore(out, 1, OutDomain(R, C, 0))
  {
    assert LawfulOut(e, s, 0) && LawfulOut(e, s, 1) && LawfulOut(e, s, 2) && LawfulOut(e, s, 3);
    var out4 := TopLevel(e, R, C, input.w4, g.w4, stray, s.inG[4], s.g[4], s.outG[4]);
    var out3 := NaiveOutLevel(e, R, C, 3, input.w3, g.w3, g.w4, out4, 1, C / 16 - 2, i => R >= 8 * i + 56, stray, s);
    var out2 := NaiveOutLevel(e, R, C, 2, input.w2, g.w2, g.w3, out3, 3, C / 8 - 6, i => R >= 4 * i + 60, stray, s);
    var out1 := NaiveOutLevel(e, R, C, 1, input.w1, g.w1, g.w2, out2, 7, C / 4 - 14, i => R >= 2 * i + 62, stray, s);
    out := NaiveOutLevel(e, R, C, 0, input.w0, g.w0, g.w1, out1, 15, C / 2 - 30, i => R >= i + 63, stray, s);
  }

  /** laplacian_naive.cpp:241-907 from `img` on */
  method Naive<P(0, !new)>(e: Kernels<P>, R: int, C: int, img: Window<P>, stray: (int, int, int) -> P, ghost s: Stages<P>)
    returns (out: Window<P>)
    requires Acceptable(e, s, R, C) && Known(img, 1, Domain(R, C, 0), s.inG[0])
    ensures Known(out, 1, OutDomain(R, C, 0), s.outG[0]) && CanStore(out, 1, OutDomain(R, C, 0))
  {
    assert DownLaws(e, s.inG, s.inRow) && DownLaws(e, s.g, s.row) by { AllDown(e, s); }
    var lut := FillTable(e, stray);
    var g0 := FillRemapped(e, R, C, img, lut, stray, s.inG[0], s.g[0]);
    var g := NaivePyramid(e, R, C, g0, 4, stray, s.g, s.row);
    var input := NaivePyramid(e, R, C, img, 1, stray, s.inG, s.inRow);
    out := NaiveCollapse(e, R, C, input, g, stray, s);
  }
}
