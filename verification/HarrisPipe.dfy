/** The loop nests of the Harris pipelines. Here every cell that a nest reads has been stored by the time it runs. */
module HarrisPipe {
  import opened Buffers
  import opened Nests
  import opened HarrisSpec

  function StencilCell<P(0)>(op: Nine<P>, src: Window<P>, i: int, j: int): P
    requires src.buf.Valid()
    reads src.buf.data
  {
    op(src.At(0, i - 1, j - 1), src.At(0, i - 1, j), src.At(0, i - 1, j + 1), src.At(0, i, j - 1), src.At(0, i, j),
       src.At(0, i, j + 1), src.At(0, i + 1, j - 1), src.At(0, i + 1, j), src.At(0, i + 1, j + 1))
  }

  lemma StencilCellIs<P(0, !new)>(op: Nine<P>, src: Window<P>, i: int, j: int, have: Box, f: Stage<P>)
    requires Known(src, 1, have, f) && have.Has(i - 1, j - 1) && have.Has(i + 1, j + 1)
    ensures StencilCell(op, src, i, j) == Stencil(op, f, i, j)
  {
  }

  method StencilNest<P(0, !new)>(op: Nine<P>, src: Window<P>, dst: Window<P>, nest: Box, ghost have: Box, ghost f: Stage<P>, ghost g: Stage<P>)
    requires Known(src, 1, have, f) && have.Contains(nest.Grow(1, 1, 1, 1))
    requires CanStore(dst, 1, nest) && dst.buf.data != src.buf.data && StencilLaw(op, f, g)
    modifies dst.buf.data
    ensures Known(dst, 1, nest, g)
  {
    forall i, j | nest.Has(i, j) ensures StencilCell(op, src, i, j) == g(0, i, j) {
      StencilCellIs(op, src, i, j, have, f);
    }
    FillBox(dst, 1, nest, (k, i, j) requires src.buf.Valid() reads src.buf.data => StencilCell(op, src, i, j), nest, g);
  }

  method PairNest<P(0, !new)>(op: (P, P) -> P, a: Window<P>, b: Window<P>, dst: Window<P>, nest: Box,
                              ghost have: Box, ghost f: Stage<P>, ghost g: Stage<P>, ghost h: Stage<P>)
    requires Known(a, 1, have, f) && Known(b, 1, have, g) && have.Contains(nest)
    requires CanStore(dst, 1, nest) && dst.buf.data != a.buf.data && dst.buf.data != b.buf.data && PairLaw(op, f, g, h)
    modifies dst.buf.data
    ensures Known(dst, 1, nest, h)
    ensures forall k, i, j {:trigger dst.At(k, i, j)} :: !(k == 0 && nest.Has(i, j)) ==> dst.At(k, i, j) == old(dst.At(k, i, j))
  {
    FillBox(dst, 1, nest,
            (k, i, j) requires a.buf.Valid() && b.buf.Valid() reads a.buf.data, b.buf.data => op(a.At(0, i, j), b.At(0, i, j)),
            nest, h);
  }

  method DetNest<P(0, !new)>(e: Kernels<P>, xx: Window<P>, yy: Window<P>, xy: Window<P>, dst: Window<P>, nest: Box,
                             ghost have: Box, ghost s: Stages<P>)
    requires Known(xx, 1, have, s.sxx) && Known(yy, 1, have, s.syy) && Known(xy, 1, have, s.sxy) && have.Contains(nest)
    requires CanStore(dst, 1, nest) && dst.buf.data !in {xx.buf.data, yy.buf.data, xy.buf.data}
    requires DetLaw(e, s.sxx, s.syy, s.sxy, s.det)
    modifies dst.buf.data
    ensures Known(dst, 1, nest, s.det)
  {
    FillBox(dst, 1, nest,
            (k, i, j) requires xx.buf.Valid() && yy.buf.Valid() && xy.buf.Valid() reads xx.buf.data, yy.buf.data, xy.buf.data =>
              e.det(xx.At(0, i, j), yy.At(0, i, j), xy.At(0, i, j)),
            nest, s.det);
  }

  method GreyNest<P(0, !new)>(e: Kernels<P>, rgb: Window<P>, dst: Window<P>, nest: Box, ghost have: Box, ghost f: Stage<P>, ghost g: Stage<P>)
    requires Known(rgb, 3, have, f) && have.Contains(nest) && CanStore(dst, 1, nest) && dst.buf.data != rgb.buf.data
    requires GreyLaw(e, f, g)
    modifies dst.buf.data
    ensures Known(dst, 1, nest, g)
  {
    FillBox(dst, 1, nest,
            (k, i, j) requires rgb.buf.Valid() reads rgb.buf.data => e.grey(rgb.At(0, i, j), rgb.At(1, i, j), rgb.At(2, i, j)),
            nest, g);
  }

  /** What the nests store, from the grey image to the response. */
  datatype Bounds = Bounds(gray: Box, slopes: Box, products: Box, sums: Box, forms: Box, harris: Box) {
    predicate Cover() {
      && gray.Contains(slopes.Grow(1, 1, 1, 1)) && slopes.Contains(products) && products.Contains(sums.Grow(1, 1, 1, 1))
      && sums.Contains(forms) && forms.Contains(harris)
    }
  }

  /** ix, iy; ixx, iyy, ixy; sxx, syy, sxy; det, trace */
  datatype Pads<!P(0)> = Pads(gray: Window<P>, ix: Window<P>, iy: Window<P>, ixx: Window<P>, iyy: Window<P>, ixy: Window<P>,
                              sxx: Window<P>, syy: Window<P>, sxy: Window<P>, det: Window<P>, trace: Window<P>)
  {
    function Slopes(): set<array<P>> { {ix.buf.data, iy.buf.data} }

    function Products(): set<array<P>> { {ixx.buf.data, iyy.buf.data, ixy.buf.data} }

    function Sums(): set<array<P>> { {sxx.buf.data, syy.buf.data, sxy.buf.data} }

    function Forms(): set<array<P>> { {det.buf.data, trace.buf.data} }

    /** all but the grey image */
    function Derived(): set<array<P>> { Slopes() + Products() + Sums() + Forms() }

    function Data(): set<array<P>> { {gray.buf.data} + Derived() }

    predicate Apart() {
      && gray.buf.data !in Derived() && ix.buf.data != iy.buf.data
      && ixx.buf.data !in {iyy.buf.data, ixy.buf.data} && iyy.buf.data != ixy.buf.data
      && sxx.buf.data !in {syy.buf.data, sxy.buf.data} && syy.buf.data != sxy.buf.data
      && det.buf.data != trace.buf.data
      && Slopes() !! Products() && Slopes() !! Sums() && Slopes() !! Forms()
      && Products() !! Sums() && Products() !! Forms() && Sums() !! Forms()
    }

    ghost predicate Ok(b: Bounds) {
      && Apart()
      && CanStore(gray, 1, b.gray) && CanStore(ix, 1, b.slopes) && CanStore(iy, 1, b.slopes)
      && CanStore(ixx, 1, b.products) && CanStore(iyy, 1, b.products) && CanStore(ixy, 1, b.products)
      && CanStore(sxx, 1, b.sums) && CanStore(syy, 1, b.sums) && CanStore(sxy, 1, b.sums)
      && CanStore(det, 1, b.forms) && CanStore(trace, 1, b.forms)
    }
  }

  method SlopePhase<P(0, !new)>(e: Kernels<P>, gray: Window<P>, p: Pads<P>, b: Bounds, ghost have: Box, ghost s: Stages<P>)
    requires Lawful(e, s) && Known(gray, 1, have, s.gray) && have.Contains(b.slopes.Grow(1, 1, 1, 1))
    requires p.Ok(b) && gray.buf.data !in p.Slopes()
    modifies p.Slopes()
    ensures Known(p.ix, 1, b.slopes, s.ix) && Known(p.iy, 1, b.slopes, s.iy)
  {
    StencilNest(e.dx, gray, p.ix, b.slopes, have, s.gray, s.ix);
    StencilNest(e.dy, gray, p.iy, b.slopes, have, s.gray, s.iy);
  }

  method ProductPhase<P(0, !new)>(e: Kernels<P>, p: Pads<P>, b: Bounds, ghost s: Stages<P>)
    requires Lawful(e, s) && b.Cover() && p.Ok(b)
    requires Known(p.ix, 1, b.slopes, s.ix) && Known(p.iy, 1, b.slopes, s.iy)
    modifies p.Products()
    ensures Known(p.ixx, 1, b.products, s.ixx) && Known(p.iyy, 1, b.products, s.iyy) && Known(p.ixy, 1, b.products, s.ixy)
  {
    PairNest(e.mul, p.ix, p.ix, p.ixx, b.products, b.slopes, s.ix, s.ix, s.ixx);
    PairNest(e.mul, p.iy, p.iy, p.iyy, b.products, b.slopes, s.iy, s.iy, s.iyy);
    PairNest(e.mul, p.ix, p.iy, p.ixy, b.products, b.slopes, s.ix, s.iy, s.ixy);
  }

  method SumPhase<P(0, !new)>(e: Kernels<P>, p: Pads<P>, b: Bounds, ghost s: Stages<P>)
    requires Lawful(e, s) && b.Cover() && p.Ok(b)
    requires Known(p.ixx, 1, b.products, s.ixx) && Known(p.iyy, 1, b.products, s.iyy) && Known(p.ixy, 1, b.products, s.ixy)
    modifies p.Sums()
    ensures Known(p.sxx, 1, b.sums, s.sxx) && Known(p.syy, 1, b.sums, s.syy) && Known(p.sxy, 1, b.sums, s.sxy)
  {
    StencilNest(e.sum, p.iyy, p.syy, b.sums, b.products, s.iyy, s.syy);
    StencilNest(e.sum, p.ixy, p.sxy, b.sums, b.products, s.ixy, s.sxy);
    StencilNest(e.sum, p.ixx, p.sxx, b.sums, b.products, s.ixx, s.sxx);
  }

  method ResponsePhase<P(0, !new)>(e: Kernels<P>, p: Pads<P>, harris: Window<P>, b: Bounds, ghost s: Stages<P>)
    requires Lawful(e, s) && b.Cover() && p.Ok(b) && CanStore(harris, 1, b.harris) && harris.buf.data !in p.Data()
    requires Known(p.sxx, 1, b.sums, s.sxx) && Known(p.syy, 1, b.sums, s.syy) && Known(p.sxy, 1, b.sums, s.sxy)
    modifies p.Forms(), harris.buf.data
    ensures Known(harris, 1, b.harris, s.harris)
    ensures forall k, i, j {:trigger harris.At(k, i, j)} ::
              !(k == 0 && b.harris.Has(i, j)) ==> harris.At(k, i, j) == old(harris.At(k, i, j))
  {
    DetNest(e, p.sxx, p.syy, p.sxy, p.det, b.forms, b.sums, s);
    PairNest(e.trace, p.sxx, p.syy, p.trace, b.forms, b.sums, s.sxx, s.syy, s.trace);
    PairNest(e.respond, p.det, p.trace, harris, b.harris, b.forms, s.det, s.trace, s.harris);
  }

  /** the stages after the grey image: harris_polymage.cpp:83-214, harris_naive.cpp:87-135 of the video demo, and
      harris_polymage_naive.cpp:79-246 */
  method FromGray<P(0, !new)>(e: Kernels<P>, gray: Window<P>, p: Pads<P>, harris: Window<P>, b: Bounds,
                              ghost have: Box, ghost s: Stages<P>)
    requires Lawful(e, s) && Known(gray, 1, have, s.gray) && have.Contains(b.slopes.Grow(1, 1, 1, 1))
    requires b.Cover() && p.Ok(b) && CanStore(harris, 1, b.harris)
    requires gray.buf.data !in p.Derived() && harris.buf.data !in p.Data() && harris.buf.data != gray.buf.data
    modifies p.Derived(), harris.buf.data
    ensures Known(harris, 1, b.harris, s.harris)
    ensures forall k, i, j {:trigger harris.At(k, i, j)} ::
              !(k == 0 && b.harris.Has(i, j)) ==> harris.At(k, i, j) == old(harris.At(k, i, j))
  {
    SlopePhase(e, gray, p, b, have, s);
    ProductPhase(e, p, b, s);
    SumPhase(e, p, b, s);
    ResponsePhase(e, p, harris, b, s);
  }

  /** harris_polymage.cpp:71-214 over a tile's scratchpads, harris_naive.cpp:78-135 over full-size buffers */
  method Pipe<P(0, !new)>(e: Kernels<P>, rgb: Window<P>, p: Pads<P>, harris: Window<P>, b: Bounds,
                          ghost have: Box, ghost f: Stage<P>, ghost s: Stages<P>)
    requires Lawful(e, s) && GreyLaw(e, f, s.gray) && Known(rgb, 3, have, f) && have.Contains(b.gray)
    requires b.Cover() && p.Ok(b) && CanStore(harris, 1, b.harris)
    requires rgb.buf.data !in p.Data() && harris.buf.data !in p.Data() && harris.buf.data != rgb.buf.data
    modifies p.Data(), harris.buf.data
    ensures Known(rgb, 3, have, f)
    ensures Known(harris, 1, b.harris, s.harris)
    ensures forall k, i, j {:trigger harris.At(k, i, j)} ::
              !(k == 0 && b.harris.Has(i, j)) ==> harris.At(k, i, j) == old(harris.At(k, i, j))
  {
    GreyNest(e, rgb, p.gray, b.gray, have, f, s.gray);
    FromGray(e, p.gray, p, harris, b, b.gray, s);
  }
}
