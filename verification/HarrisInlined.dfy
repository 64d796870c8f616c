/** apps/harris: the tiled code inlines eight of the naive code's ten stored images into one expression. Both give
    the same response, for all sizes. */
module HarrisInlined {
  import opened Buffers
  import opened Nests
  import opened HarrisSpec
  import opened HarrisPipe
  import opened HarrisVideo

  /** the sum over the 3 x 3 neighbourhood of the products of two images, each product computed where it is used */
  function SumOfProducts<P(0)>(e: Kernels<P>, a: Window<P>, b: Window<P>, i: int, j: int): P
    requires a.buf.Valid() && b.buf.Valid()
    reads a.buf.data, b.buf.data
  {
    e.sum(e.mul(a.At(0, i - 1, j - 1), b.At(0, i - 1, j - 1)), e.mul(a.At(0, i - 1, j), b.At(0, i - 1, j)),
          e.mul(a.At(0, i - 1, j + 1), b.At(0, i - 1, j + 1)), e.mul(a.At(0, i, j - 1), b.At(0, i, j - 1)),
          e.mul(a.At(0, i, j), b.At(0, i, j)), e.mul(a.At(0, i, j + 1), b.At(0, i, j + 1)),
          e.mul(a.At(0, i + 1, j - 1), b.At(0, i + 1, j - 1)), e.mul(a.At(0, i + 1, j), b.At(0, i + 1, j)),
          e.mul(a.At(0, i + 1, j + 1), b.At(0, i + 1, j + 1)))
  }

  /** the one expression of harris_polymage.cpp:93 */
  function Inlined<P(0)>(e: Kernels<P>, ix: Window<P>, iy: Window<P>, i: int, j: int): P
    requires ix.buf.Valid() && iy.buf.Valid()
    reads ix.buf.data, iy.buf.data
  {
    e.respond(e.det(SumOfProducts(e, ix, ix, i, j), SumOfProducts(e, iy, iy, i, j), SumOfProducts(e, ix, iy, i, j)),
              e.trace(SumOfProducts(e, ix, ix, i, j), SumOfProducts(e, iy, iy, i, j)))
  }

  lemma SumOfProductsIs<P(0, !new)>(e: Kernels<P>, a: Window<P>, b: Window<P>, i: int, j: int, have: Box,
                                    f: Stage<P>, g: Stage<P>, fg: Stage<P>, sum: Stage<P>)
    requires Known(a, 1, have, f) && Known(b, 1, have, g) && have.Has(i - 1, j - 1) && have.Has(i + 1, j + 1)
    requires PairLaw(e.mul, f, g, fg) && StencilLaw(e.sum, fg, sum)
    ensures SumOfProducts(e, a, b, i, j) == sum(0, i, j)
  {
    forall u, v | have.Has(u, v) ensures e.mul(a.At(0, u, v), b.At(0, u, v)) == fg(0, u, v) {
      assert a.At(0, u, v) == f(0, u, v) && b.At(0, u, v) == g(0, u, v);
    }
    assert sum(0, i, j) == Stencil(e.sum, fg, i, j);
  }

  /** Inlining changes nothing: it is the stage that the naive code computes through eight stored images. */
  lemma InlinedIs<P(0, !new)>(e: Kernels<P>, ix: Window<P>, iy: Window<P>, i: int, j: int, have: Box, s: Stages<P>)
    requires Lawful(e, s) && Known(ix, 1, have, s.ix) && Known(iy, 1, have, s.iy)
    requires have.Has(i - 1, j - 1) && have.Has(i + 1, j + 1)
    ensures Inlined(e, ix, iy, i, j) == s.harris(0, i, j)
  {
    SumOfProductsIs(e, ix, ix, i, j, have, s.ix, s.ix, s.ixx, s.sxx);
    SumOfProductsIs(e, iy, iy, i, j, have, s.iy, s.iy, s.iyy, s.syy);
    SumOfProductsIs(e, ix, iy, i, j, have, s.ix, s.iy, s.ixy, s.sxy);
    assert s.harris(0, i, j) == e.respond(s.det(0, i, j), s.trace(0, i, j));
  }

  method InlinedNest<P(0, !new)>(e: Kernels<P>, ix: Window<P>, iy: Window<P>, dst: Window<P>, nest: Box, ghost have: Box, ghost s: Stages<P>)
    requires Lawful(e, s) && Known(ix, 1, have, s.ix) && Known(iy, 1, have, s.iy) && have.Contains(nest.Grow(1, 1, 1, 1))
    requires CanStore(dst, 1, nest) && dst.buf.data != ix.buf.data && dst.buf.data != iy.buf.data
    modifies dst.buf.data
    ensures Known(dst, 1, nest, s.harris)
    ensures forall k, i, j {:trigger dst.At(k, i, j)} :: !(k == 0 && nest.Has(i, j)) ==> dst.At(k, i, j) == old(dst.At(k, i, j))
  {
    forall i, j | nest.Has(i, j) ensures Inlined(e, ix, iy, i, j) == s.harris(0, i, j) {
      InlinedIs(e, ix, iy, i, j, have, s);
    }
    FillBox(dst, 1, nest,
            (k, i, j) requires ix.buf.Valid() && iy.buf.Valid() reads ix.buf.data, iy.buf.data => Inlined(e, ix, iy, i, j),
            nest, s.harris);
  }

  /** the cells of a scratchpad in tile (t0, t1) */
  function TilePad(t0: int, t1: int): Box { Box(32 * t0, 32 * t0 + 33, 256 * t1, 256 * t1 + 257) }

  /** the response cells of tile (t0, t1) */
  function TileOut(R: int, C: int, t0: int, t1: int): Box {
    Clip(Box(32 * t0 + 1, 32 * t0 + 32, 256 * t1 + 1, 256 * t1 + 256), Image(R, C))
  }

  /** one tile: harris_polymage.cpp:60-95 */
  method InlinedTile<P(0, !new)>(e: Kernels<P>, R: int, C: int, img: Window<P>, ixPad: Window<P>, iyPad: Window<P>,
                                 harris: Window<P>, t0: int, t1: int, ghost s: Stages<P>)
    requires Lawful(e, s) && Known(img, 1, Whole(R, C), s.gray) && CanStore(harris, 1, Whole(R, C))
    requires Sized(ixPad, 1, TilePad(0, 0)) && Sized(iyPad, 1, TilePad(0, 0)) && ixPad.buf.data != iyPad.buf.data
    requires img.buf.data !in {ixPad.buf.data, iyPad.buf.data} && harris.buf.data !in {img.buf.data, ixPad.buf.data, iyPad.buf.data}
    modifies ixPad.buf.data, iyPad.buf.data, harris.buf.data
    ensures Known(img, 1, Whole(R, C), s.gray)
    ensures Known(harris, 1, TileOut(R, C, t0, t1), s.harris)
    ensures forall k, i, j {:trigger harris.At(k, i, j)} ::
              !(k == 0 && TileOut(R, C, t0, t1).Has(i, j)) ==> harris.At(k, i, j) == old(harris.At(k, i, j))
  {
    var nest := Clip(TilePad(t0, t1), Box(1, R, 1, C));
    var ix, iy := Window(ixPad.buf, 32 * t0, 256 * t1), Window(iyPad.buf, 32 * t0, 256 * t1);
    SizedCanStore(ix, 1, TilePad(t0, t1), nest);
    SizedCanStore(iy, 1, TilePad(t0, t1), nest);
    StencilNest(e.dy, img, iy, nest, Whole(R, C), s.gray, s.iy);
    StencilNest(e.dx, img, ix, nest, Whole(R, C), s.gray, s.ix);
    InlinedNest(e, ix, iy, harris, TileOut(R, C, t0, t1), nest, s);
  }

  method InlinedRow<P(0, !new)>(e: Kernels<P>, R: int, C: int, img: Window<P>, harris: Window<P>, t0: int, ct: int,
                                stray: (int, int, int) -> P, ghost s: Stages<P>)
    requires Lawful(e, s) && Known(img, 1, Whole(R, C), s.gray) && CanStore(harris, 1, Whole(R, C)) && harris.buf.data != img.buf.data
    requires -1 <= ct && C - 1 <= 256 * ct + 256
    modifies harris.buf.data
    ensures Known(img, 1, Whole(R, C), s.gray)
    ensures Known(harris, 1, Clip(Box(32 * t0 + 1, 32 * t0 + 32, 2, C - 1), Image(R, C)), s.harris)
    ensures forall k, i, j {:trigger harris.At(k, i, j)} ::
              !(k == 0 && Image(R, C).Has(i, j) && 32 * t0 + 1 <= i <= 32 * t0 + 32) ==> harris.At(k, i, j) == old(harris.At(k, i, j))
  {
    var iy := NewWindow(1, TilePad(0, 0), stray);
    var ix := NewWindow(1, TilePad(0, 0), stray);
    var t1 := -1;
    while t1 <= ct
      invariant -1 <= t1 <= ct + 1
      invariant Known(img, 1, Whole(R, C), s.gray)
      invariant Known(harris, 1, Clip(Box(32 * t0 + 1, 32 * t0 + 32, 2, 256 * t1), Image(R, C)), s.harris)
      invariant forall k, i, j {:trigger harris.At(k, i, j)} ::
                  !(k == 0 && Image(R, C).Has(i, j) && 32 * t0 + 1 <= i <= 32 * t0 + 32) ==> harris.At(k, i, j) == old(harris.At(k, i, j))
    {
      InlinedTile(e, R, C, img, ix, iy, harris, t0, t1, s);
      t1 := t1 + 1;
    }
  }

  /** harris_polymage.cpp:53-97 */
  method InlinedTiled<P(0, !new)>(e: Kernels<P>, R: int, C: int, img: Window<P>, harris: Window<P>,
                                  stray: (int, int, int) -> P, ghost s: Stages<P>)
    requires R >= 0 && C >= 0 && Lawful(e, s) && Known(img, 1, Whole(R, C), s.gray)
    requires CanStore(harris, 1, Whole(R, C)) && harris.buf.data != img.buf.data
    modifies harris.buf.data
    ensures Known(img, 1, Whole(R, C), s.gray) && Known(harris, 1, Image(R, C), s.harris)
    ensures forall k, i, j {:trigger harris.At(k, i, j)} ::
              !(k == 0 && Image(R, C).Has(i, j)) ==> harris.At(k, i, j) == old(harris.At(k, i, j))
  {
    var t0 := -1;
    while t0 <= R / 32
      invariant -1 <= t0 <= R / 32 + 1
      invariant Known(img, 1, Whole(R, C), s.gray)
      invariant Known(harris, 1, Clip(Box(2, 32 * t0, 2, C - 1), Image(R, C)), s.harris)
      invariant forall k, i, j {:trigger harris.At(k, i, j)} ::
                  !(k == 0 && Image(R, C).Has(i, j)) ==> harris.At(k, i, j) == old(harris.At(k, i, j))
    {
      InlinedRow(e, R, C, img, harris, t0, C / 256, stray, s);
      t0 := t0 + 1;
    }
  }

  /** harris_polymage_naive.cpp:79-246 */
  method StoredNaive<P(0, !new)>(e: Kernels<P>, R: int, C: int, img: Window<P>, harris: Window<P>,
                                 stray: (int, int, int) -> P, ghost s: Stages<P>)
    requires R >= 0 && C >= 0 && Lawful(e, s) && Known(img, 1, Whole(R, C), s.gray)
    requires CanStore(harris, 1, Whole(R, C)) && harris.buf.data != img.buf.data
    modifies harris.buf.data
    ensures Known(harris, 1, Image(R, C), s.harris)
    ensures forall k, i, j {:trigger harris.At(k, i, j)} ::
              !(k == 0 && Image(R, C).Has(i, j)) ==> harris.At(k, i, j) == old(harris.At(k, i, j))
  {
    var p := NewPads(Whole(R, C), stray);
    PadsFit(p, Whole(R, C), NaiveBounds(R, C));
    FromGray(e, img, p, harris, NaiveBounds(R, C), Whole(R, C), s);
  }

  /** Output buffers that start alike end alike, cell by cell, borders included. */
  method InlinedEqualsNaive<P(0, !new)>(e: Kernels<P>, R: int, C: int, img: Window<P>, tiled: Window<P>, naive: Window<P>,
                                        stray: (int, int, int) -> P, stray': (int, int, int) -> P)
    requires R >= 0 && C >= 0 && img.buf.Valid() && CanStore(tiled, 1, Whole(R, C)) && CanStore(naive, 1, Whole(R, C))
    requires tiled.buf.data != img.buf.data && naive.buf.data != img.buf.data && tiled.buf.data != naive.buf.data
    requires forall i, j {:trigger tiled.At(0, i, j)} {:trigger naive.At(0, i, j)} :: tiled.At(0, i, j) == naive.At(0, i, j)
    modifies tiled.buf.data, naive.buf.data
    ensures forall i, j :: tiled.At(0, i, j) == naive.At(0, i, j)
  {
    ghost var gray := Snapshot(img);
    ghost var s := MakeStages(e, gray);
    InlinedTiled(e, R, C, img, tiled, stray, s);
    StoredNaive(e, R, C, img, naive, stray', s);
  }
}
