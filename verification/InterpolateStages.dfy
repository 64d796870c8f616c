/** The loop nests of multi-scale interpolation: an interior and zero borders. */
module InterpolateStages {
  import opened Buffers
  import opened Nests
  import opened InterpolateSpec

  /** Which border rows and columns a tile stores, and how far. */
  datatype Borders = Borders(left: bool, right: bool, top: bool, bottom: bool, r0: int, r1: int, c0: int, c1: int) {
    predicate Has(R: int, C: int, i: int, j: int) {
      || (((left && j == 0) || (right && j == C + 1)) && r0 <= i <= r1)
      || (((top && i == 0) || (bottom && i == R + 1)) && c0 <= j <= c1)
    }
  }

  ghost predicate CanStoreBorders<P(0)>(w: Window<P>, R: int, C: int, b: Borders) {
    w.buf.Valid() && forall k, i, j :: 0 <= k < 4 && b.Has(R, C, i, j) ==> w.Has(k, i, j)
  }

  method ZeroBox<P(0)>(dst: Window<P>, zero: P, box: Box)
    requires CanStore(dst, 4, box)
    modifies dst.buf.data
    ensures forall k, i, j {:trigger dst.At(k, i, j)} ::
              dst.At(k, i, j) == if 0 <= k < 4 && box.Has(i, j) then zero else old(dst.At(k, i, j))
  {
    FillBox(dst, 4, box, (k, i, j) => zero, box, (k, i, j) => zero);
  }

  method ZeroBorders<P(0)>(dst: Window<P>, zero: P, R: int, C: int, b: Borders)
    requires CanStoreBorders(dst, R, C, b)
    modifies dst.buf.data
    ensures forall k, i, j {:trigger dst.At(k, i, j)} ::
              dst.At(k, i, j) == if 0 <= k < 4 && b.Has(R, C, i, j) then zero else old(dst.At(k, i, j))
  {
    if b.right {
      ZeroBox(dst, zero, Box(b.r0, b.r1, C + 1, C + 1));
    }
    if b.left {
      ZeroBox(dst, zero, Box(b.r0, b.r1, 0, 0));
    }
    if b.bottom {
      ZeroBox(dst, zero, Box(R + 1, R + 1, b.c0, b.c1));
    }
    if b.top {
      ZeroBox(dst, zero, Box(0, 0, b.c0, b.c1));
    }
  }

  /** What of `good` is inside is stored by the interior nest, the rest by the border nests. */
  ghost predicate Covers(good: Box, nest: Box, b: Borders, R: int, C: int) {
    forall i, j {:trigger good.Has(i, j)} :: good.Has(i, j) ==> if Inner(R, C, i, j) then nest.Has(i, j) else b.Has(R, C, i, j)
  }

  predicate Inside(nest: Box, R: int, C: int) {
    1 <= nest.r0 && nest.r1 <= R && 1 <= nest.c0 && nest.c1 <= C
  }

  /** the inner cells of a box */
  function InnerOf(good: Box, R: int, C: int): Box {
    Box(Max(1, good.r0), Min(R, good.r1), Max(1, good.c0), Min(C, good.c1))
  }

  /** Borders, then the interior, on four planes. */
  method Bordered<P(0, !new)>(dst: Window<P>, zero: P, R: int, C: int, b: Borders, nest: Box, f: (int, int, int) ~> P,
                              ghost good: Box, ghost spec: Stage<P>)
    requires CanStoreBorders(dst, R, C, b) && CanStore(dst, 4, nest) && Inside(nest, R, C) && Covers(good, nest, b, R, C)
    requires forall k, i, j :: 0 <= k < 4 && nest.Has(i, j) ==> f.requires(k, i, j) && dst.buf.data !in f.reads(k, i, j)
    requires forall k, i, j :: 0 <= k < 4 && nest.Has(i, j) && good.Has(i, j) ==> f(k, i, j) == spec(k, i, j)
    requires forall k, i, j {:trigger spec(k, i, j)} :: !Inner(R, C, i, j) ==> spec(k, i, j) == zero
    modifies dst.buf.data
    ensures Known(dst, 4, good, spec)
    ensures forall k, i, j {:trigger dst.At(k, i, j)} :: !(0 <= k < 4 && nest.Has(i, j)) ==>
              dst.At(k, i, j) == if 0 <= k < 4 && b.Has(R, C, i, j) then zero else old(dst.At(k, i, j))
  {
    ZeroBorders(dst, zero, R, C, b);
    FillBox(dst, 4, nest, f, good, spec);
  }

  function DownRowCell<P(0)>(e: Kernels<P>, src: Window<P>, k: int, i: int, j: int): P
    requires src.buf.Valid()
    reads src.buf.data
  {
    e.down(src.At(k, 2 * i - 2, j), src.At(k, 2 * i - 1, j), src.At(k, 2 * i, j))
  }

  lemma DownRowCellIs<P(0, !new)>(e: Kernels<P>, src: Window<P>, k: int, i: int, j: int, have: Box, f: Stage<P>)
    requires Known(src, 4, have, f) && 0 <= k < 4 && have.Has(2 * i - 2, j) && have.Has(2 * i, j)
    ensures DownRowCell(e, src, k, i, j) == DownRow(e, f, k, i, j)
  {
  }

  method DownRowsStage<P(0, !new)>(e: Kernels<P>, src: Window<P>, dst: Window<P>, R: int, C: int, b: Borders, nest: Box,
                                   ghost good: Box, ghost have: Box, ghost f: Stage<P>, ghost g: Stage<P>)
    requires CanStoreBorders(dst, R, C, b) && CanStore(dst, 4, nest) && Inside(nest, R, C) && Covers(good, nest, b, R, C)
    requires Known(src, 4, have, f) && dst.buf.data != src.buf.data && DownRowLaw(e, f, R, C, g)
    requires var n := InnerOf(good, R, C); have.Contains(Box(2 * n.r0 - 2, 2 * n.r1, n.c0, n.c1))
    modifies dst.buf.data
    ensures Known(dst, 4, good, g)
    ensures forall k, i, j {:trigger dst.At(k, i, j)} :: !(0 <= k < 4 && nest.Has(i, j)) ==>
              dst.At(k, i, j) == if 0 <= k < 4 && b.Has(R, C, i, j) then e.zero else old(dst.At(k, i, j))
  {
    forall k, i, j | 0 <= k < 4 && nest.Has(i, j) && good.Has(i, j) ensures DownRowCell(e, src, k, i, j) == g(k, i, j) {
      DownRowCellIs(e, src, k, i, j, have, f);
    }
    Bordered(dst, e.zero, R, C, b, nest,
             (k, i, j) requires src.buf.Valid() reads src.buf.data => DownRowCell(e, src, k, i, j), good, g);
  }

  function DownColCell<P(0)>(e: Kernels<P>, src: Window<P>, k: int, i: int, j: int): P
    requires src.buf.Valid()
    reads src.buf.data
  {
    e.down(src.At(k, i, 2 * j - 2), src.At(k, i, 2 * j - 1), src.At(k, i, 2 * j))
  }

  lemma DownColCellIs<P(0, !new)>(e: Kernels<P>, src: Window<P>, k: int, i: int, j: int, have: Box, f: Stage<P>)
    requires Known(src, 4, have, f) && 0 <= k < 4 && have.Has(i, 2 * j - 2) && have.Has(i, 2 * j)
    ensures DownColCell(e, src, k, i, j) == DownCol(e, f, k, i, j)
  {
  }

  method DownColsStage<P(0, !new)>(e: Kernels<P>, src: Window<P>, dst: Window<P>, R: int, C: int, b: Borders, nest: Box,
                                   ghost good: Box, ghost have: Box, ghost f: Stage<P>, ghost g: Stage<P>)
    requires CanStoreBorders(dst, R, C, b) && CanStore(dst, 4, nest) && Inside(nest, R, C) && Covers(good, nest, b, R, C)
    requires Known(src, 4, have, f) && dst.buf.data != src.buf.data && DownColLaw(e, f, R, C, g)
    requires var n := InnerOf(good, R, C); have.Contains(Box(n.r0, n.r1, 2 * n.c0 - 2, 2 * n.c1))
    modifies dst.buf.data
    ensures Known(dst, 4, good, g)
    ensures forall k, i, j {:trigger dst.At(k, i, j)} :: !(0 <= k < 4 && nest.Has(i, j)) ==>
              dst.At(k, i, j) == if 0 <= k < 4 && b.Has(R, C, i, j) then e.zero else old(dst.At(k, i, j))
  {
    forall k, i, j | 0 <= k < 4 && nest.Has(i, j) && good.Has(i, j) ensures DownColCell(e, src, k, i, j) == g(k, i, j) {
      DownColCellIs(e, src, k, i, j, have, f);
    }
    Bordered(dst, e.zero, R, C, b, nest,
             (k, i, j) requires src.buf.Valid() reads src.buf.data => DownColCell(e, src, k, i, j), good, g);
  }

  lemma Neighbours(n: int, lo: int, hi: int)
    requires lo <= n <= hi
    ensures (lo + 1) / 2 <= (n + 1) / 2 <= (n + 2) / 2 <= (hi + 2) / 2
  {
  }

  method UpRowsStage<P(0, !new)>(e: Kernels<P>, src: Window<P>, dst: Window<P>, R: int, C: int, b: Borders, nest: Box,
                                 ghost good: Box, ghost have: Box, ghost f: Stage<P>, ghost g: Stage<P>)
    requires CanStoreBorders(dst, R, C, b) && CanStore(dst, 4, nest) && Inside(nest, R, C) && Covers(good, nest, b, R, C)
    requires Known(src, 4, have, f) && dst.buf.data != src.buf.data && UpRowLaw(e, f, R, C, g)
    requires var n := InnerOf(good, R, C); have.Contains(Box((n.r0 + 1) / 2, (n.r1 + 2) / 2, n.c0, n.c1))
    modifies dst.buf.data
    ensures Known(dst, 4, good, g)
  {
    ghost var n := InnerOf(good, R, C);
    forall k, i, j | 0 <= k < 4 && nest.Has(i, j) && good.Has(i, j)
      ensures e.mean(src.At(k, (i + 1) / 2, j), src.At(k, (i + 2) / 2, j)) == g(k, i, j)
    {
      Neighbours(i, n.r0, n.r1);
      Neighbours(n.r0, n.r0, n.r1);
    }
    Bordered(dst, e.zero, R, C, b, nest,
             (k, i, j) requires src.buf.Valid() reads src.buf.data => e.mean(src.At(k, (i + 1) / 2, j), src.At(k, (i + 2) / 2, j)),
             good, g);
  }

  function BlendCell<P(0)>(e: Kernels<P>, d: Window<P>, u: Window<P>, k: int, i: int, j: int): P
    requires d.buf.Valid() && u.buf.Valid()
    reads d.buf.data, u.buf.data
  {
    e.blend(d.At(k, i, j), d.At(3, i, j), u.At(k, i, (j + 1) / 2), u.At(k, i, (j + 2) / 2))
  }

  lemma BlendCellIs<P(0, !new)>(e: Kernels<P>, d: Window<P>, u: Window<P>, k: int, i: int, j: int,
                                haveD: Box, haveU: Box, f: Stage<P>, h: Stage<P>)
    requires Known(d, 4, haveD, f) && Known(u, 4, haveU, h) && 0 <= k < 4 && haveD.Has(i, j)
    requires haveU.Has(i, (j + 1) / 2) && haveU.Has(i, (j + 2) / 2)
    ensures BlendCell(e, d, u, k, i, j) == Blend(e, f, h, k, i, j)
  {
  }

  method BlendStage<P(0, !new)>(e: Kernels<P>, d: Window<P>, u: Window<P>, dst: Window<P>, R: int, C: int, b: Borders, nest: Box,
                                ghost good: Box, ghost haveD: Box, ghost haveU: Box,
                                ghost f: Stage<P>, ghost h: Stage<P>, ghost g: Stage<P>)
    requires CanStoreBorders(dst, R, C, b) && CanStore(dst, 4, nest) && Inside(nest, R, C) && Covers(good, nest, b, R, C)
    requires Known(d, 4, haveD, f) && Known(u, 4, haveU, h) && dst.buf.data !in {d.buf.data, u.buf.data}
    requires BlendLaw(e, f, h, R, C, g)
    requires var n := InnerOf(good, R, C); haveD.Contains(n) && haveU.Contains(Box(n.r0, n.r1, (n.c0 + 1) / 2, (n.c1 + 2) / 2))
    modifies dst.buf.data
    ensures Known(dst, 4, good, g)
  {
    ghost var n := InnerOf(good, R, C);
    forall k, i, j | 0 <= k < 4 && nest.Has(i, j) && good.Has(i, j) ensures BlendCell(e, d, u, k, i, j) == g(k, i, j) {
      Neighbours(j, n.c0, n.c1);
      Neighbours(n.c0, n.c0, n.c1);
      BlendCellIs(e, d, u, k, i, j, haveD, haveU, f, h);
    }
    Bordered(dst, e.zero, R, C, b, nest,
             (k, i, j) requires d.buf.Valid() && u.buf.Valid() reads d.buf.data, u.buf.data => BlendCell(e, d, u, k, i, j),
             good, g);
  }
}
