/** The unsharp mask as a function of the image. */
module UnsharpSpec {
  import opened Arithmetic
  import opened Buffers

  datatype Kernels<!P> = Kernels(
    blur: (P, P, P, P, P) -> P,
    sharpen: (P, P) -> P,         // pixel, blurred pixel
    mask: (P, P, P) -> P)         // pixel, blurred pixel, sharpened pixel

  function BlurRows<P>(e: Kernels<P>, f: Stage<P>, k: int, i: int, j: int): P {
    e.blur(f(k, i - 2, j), f(k, i - 1, j), f(k, i, j), f(k, i + 1, j), f(k, i + 2, j))
  }

  function BlurCols<P>(e: Kernels<P>, f: Stage<P>, k: int, i: int, j: int): P {
    e.blur(f(k, i, j - 2), f(k, i, j - 1), f(k, i, j), f(k, i, j + 1), f(k, i, j + 2))
  }

  datatype Stages<!P> = Stages(img: Stage<P>, blurx: Stage<P>, blury: Stage<P>, sharpen: Stage<P>, mask: Stage<P>)

  ghost predicate BlurRowsLaw<P(!new)>(e: Kernels<P>, f: Stage<P>, g: Stage<P>) {
    forall k, i, j {:trigger g(k, i, j)} :: g(k, i, j) == BlurRows(e, f, k, i, j)
  }

  ghost predicate BlurColsLaw<P(!new)>(e: Kernels<P>, f: Stage<P>, g: Stage<P>) {
    forall k, i, j {:trigger g(k, i, j)} :: g(k, i, j) == BlurCols(e, f, k, i, j)
  }

  ghost predicate SharpenLaw<P(!new)>(e: Kernels<P>, img: Stage<P>, f: Stage<P>, g: Stage<P>) {
    forall k, i, j {:trigger g(k, i, j)} :: g(k, i, j) == e.sharpen(img(k, i, j), f(k, i, j))
  }

  ghost predicate MaskLaw<P(!new)>(e: Kernels<P>, img: Stage<P>, f: Stage<P>, h: Stage<P>, g: Stage<P>) {
    forall k, i, j {:trigger g(k, i, j)} :: g(k, i, j) == e.mask(img(k, i, j), f(k, i, j), h(k, i, j))
  }

  ghost predicate Lawful<P(!new)>(e: Kernels<P>, s: Stages<P>) {
    && BlurRowsLaw(e, s.img, s.blurx) && BlurColsLaw(e, s.blurx, s.blury) && SharpenLaw(e, s.img, s.blury, s.sharpen)
    && MaskLaw(e, s.img, s.blury, s.sharpen, s.mask)
  }

  /** Every image has such a family. */
  lemma MakeStages<P(!new)>(e: Kernels<P>, img: Stage<P>) returns (s: Stages<P>)
    ensures Lawful(e, s) && s.img == img
  {
    var blurx: Stage<P> := (k, i, j) => BlurRows(e, img, k, i, j);
    var blury: Stage<P> := (k, i, j) => BlurCols(e, blurx, k, i, j);
    var sharpen: Stage<P> := (k, i, j) => e.sharpen(img(k, i, j), blury(k, i, j));
    s := Stages(img, blurx, blury, sharpen, (k, i, j) => e.mask(img(k, i, j), blury(k, i, j), sharpen(k, i, j)));
  }

  /** the source's expressions */
  function SourceKernels<P>(ar: Arith<P>, threshold: P, weight: P): Kernels<P> {
    Kernels(
      (a, b, c, d, f) =>
        ar.add(ar.add(ar.add(ar.add(ar.mul(a, ar.lit(0.0625)), ar.mul(b, ar.lit(0.25))), ar.mul(c, ar.lit(0.375))),
                      ar.mul(d, ar.lit(0.25))), ar.mul(f, ar.lit(0.0625))),
      (v, blurred) => ar.add(ar.mul(v, ar.add(ar.ofInt(1), weight)), ar.mul(blurred, ar.neg(weight))),
      (v, blurred, sharp) => if ar.less(ar.abs(ar.sub(v, blurred)), threshold) then v else sharp)
  }
}

/** The tiled unsharp_mask_polymage.cpp and unsharp_mask_polymage_naive.cpp give the same mask, for all sizes. */
module UnsharpEqual {
  import opened Buffers
  import opened Nests
  import opened UnsharpSpec

  method BlurRowsNest<P(0, !new)>(e: Kernels<P>, src: Window<P>, dst: Window<P>, nest: Box, ghost have: Box, ghost f: Stage<P>, ghost g: Stage<P>)
    requires Known(src, 3, have, f) && have.Contains(nest.Grow(2, 2, 0, 0))
    requires CanStore(dst, 3, nest) && dst.buf.data != src.buf.data && BlurRowsLaw(e, f, g)
    modifies dst.buf.data
    ensures Known(dst, 3, nest, g)
  {
    forall k, i, j | 0 <= k < 3 && nest.Has(i, j) ensures BlurRowsCell(e, src, k, i, j) == g(k, i, j) {
      BlurRowsCellIs(e, src, k, i, j, have, f);
    }
    FillBox(dst, 3, nest, (k, i, j) requires src.buf.Valid() reads src.buf.data => BlurRowsCell(e, src, k, i, j), nest, g);
  }

  function BlurRowsCell<P(0)>(e: Kernels<P>, src: Window<P>, k: int, i: int, j: int): P
    requires src.buf.Valid()
    reads src.buf.data
  {
    e.blur(src.At(k, i - 2, j), src.At(k, i - 1, j), src.At(k, i, j), src.At(k, i + 1, j), src.At(k, i + 2, j))
  }

  lemma BlurRowsCellIs<P(0, !new)>(e: Kernels<P>, src: Window<P>, k: int, i: int, j: int, have: Box, f: Stage<P>)
    requires Known(src, 3, have, f) && 0 <= k < 3 && have.Has(i - 2, j) && have.Has(i + 2, j)
    ensures BlurRowsCell(e, src, k, i, j) == BlurRows(e, f, k, i, j)
  {
  }

  function BlurColsCell<P(0)>(e: Kernels<P>, src: Window<P>, k: int, i: int, j: int): P
    requires src.buf.Valid()
    reads src.buf.data
  {
    e.blur(src.At(k, i, j - 2), src.At(k, i, j - 1), src.At(k, i, j), src.At(k, i, j + 1), src.At(k, i, j + 2))
  }

  lemma BlurColsCellIs<P(0, !new)>(e: Kernels<P>, src: Window<P>, k: int, i: int, j: int, have: Box, f: Stage<P>)
    requires Known(src, 3, have, f) && 0 <= k < 3 && have.Has(i, j - 2) && have.Has(i, j + 2)
    ensures BlurColsCell(e, src, k, i, j) == BlurCols(e, f, k, i, j)
  {
  }

  /** `nest` may be wider than `good` and read beyond the row, at local columns -1 and 518. */
  method BlurColsNest<P(0, !new)>(e: Kernels<P>, src: Window<P>, dst: Window<P>, nest: Box,
                                  ghost good: Box, ghost have: Box, ghost f: Stage<P>, ghost g: Stage<P>)
    requires Known(src, 3, have, f) && have.Contains(good.Grow(0, 0, 2, 2)) && nest.Contains(good)
    requires CanStore(dst, 3, nest) && dst.buf.data != src.buf.data && BlurColsLaw(e, f, g)
    modifies dst.buf.data
    ensures Known(dst, 3, good, g)
  {
    forall k, i, j | 0 <= k < 3 && good.Has(i, j) ensures BlurColsCell(e, src, k, i, j) == g(k, i, j) {
      BlurColsCellIs(e, src, k, i, j, have, f);
    }
    FillBox(dst, 3, nest, (k, i, j) requires src.buf.Valid() reads src.buf.data => BlurColsCell(e, src, k, i, j), good, g);
  }

  method SharpenNest<P(0, !new)>(e: Kernels<P>, img: Window<P>, src: Window<P>, dst: Window<P>, nest: Box,
                                 ghost whole: Box, ghost have: Box, ghost v: Stage<P>, ghost f: Stage<P>, ghost g: Stage<P>)
    requires Known(img, 3, whole, v) && whole.Contains(nest) && Known(src, 3, have, f) && have.Contains(nest)
    requires CanStore(dst, 3, nest) && dst.buf.data !in {img.buf.data, src.buf.data} && SharpenLaw(e, v, f, g)
    modifies dst.buf.data
    ensures Known(dst, 3, nest, g)
  {
    FillBox(dst, 3, nest,
            (k, i, j) requires img.buf.Valid() && src.buf.Valid() reads img.buf.data, src.buf.data =>
              e.sharpen(img.At(k, i, j), src.At(k, i, j)),
            nest, g);
  }

  method MaskNest<P(0, !new)>(e: Kernels<P>, img: Window<P>, src: Window<P>, sharp: Window<P>, dst: Window<P>, nest: Box,
                              ghost whole: Box, ghost have: Box, ghost v: Stage<P>, ghost f: Stage<P>, ghost h: Stage<P>, ghost g: Stage<P>)
    requires Known(img, 3, whole, v) && whole.Contains(nest) && Known(src, 3, have, f) && Known(sharp, 3, have, h) && have.Contains(nest)
    requires CanStore(dst, 3, nest) && dst.buf.data !in {img.buf.data, src.buf.data, sharp.buf.data} && MaskLaw(e, v, f, h, g)
    modifies dst.buf.data
    ensures Known(dst, 3, nest, g)
    ensures forall k, i, j {:trigger dst.At(k, i, j)} :: !nest.Has(i, j) ==> dst.At(k, i, j) == old(dst.At(k, i, j))
  {
    FillBox(dst, 3, nest,
            (k, i, j) requires img.buf.Valid() && src.buf.Valid() && sharp.buf.Valid()
                      reads img.buf.data, src.buf.data, sharp.buf.data =>
              e.mask(img.At(k, i, j), src.At(k, i, j), sharp.At(k, i, j)),
            nest, g);
  }

  datatype Bounds = Bounds(blurx: Box, blury: Box, sharpen: Box, mask: Box) {
    /** sharpen's cells are where blury is needed. */
    predicate Cover() {
      blurx.Contains(sharpen.Grow(0, 0, 2, 2)) && blury.Contains(sharpen) && sharpen.Contains(mask)
    }
  }

  datatype Pads<!P(0)> = Pads(blurx: Window<P>, blury: Window<P>, sharpen: Window<P>) {
    function Data(): set<array<P>> { {blurx.buf.data, blury.buf.data, sharpen.buf.data} }

    ghost predicate Ok(b: Bounds) {
      && blurx.buf.data !in {blury.buf.data, sharpen.buf.data} && blury.buf.data != sharpen.buf.data
      && CanStore(blurx, 3, b.blurx) && CanStore(blury, 3, b.blury) && CanStore(sharpen, 3, b.sharpen)
    }
  }

  function Whole(R: int, C: int): Box { Box(0, R + 3, 0, C + 3) }

  function Image(R: int, C: int): Box { Box(2, R + 1, 2, C + 1) }

  method Pipe<P(0, !new)>(e: Kernels<P>, img: Window<P>, p: Pads<P>, mask: Window<P>, b: Bounds, ghost whole: Box, ghost s: Stages<P>)
    requires Lawful(e, s) && Known(img, 3, whole, s.img) && whole.Contains(b.blurx.Grow(2, 2, 0, 0)) && whole.Contains(b.sharpen)
    requires b.Cover() && p.Ok(b) && CanStore(mask, 3, b.mask)
    requires img.buf.data !in p.Data() && mask.buf.data !in p.Data() && mask.buf.data != img.buf.data
    modifies p.Data(), mask.buf.data
    ensures Known(img, 3, whole, s.img)
    ensures Known(mask, 3, b.mask, s.mask)
    ensures forall k, i, j {:trigger mask.At(k, i, j)} :: !b.mask.Has(i, j) ==> mask.At(k, i, j) == old(mask.At(k, i, j))
  {
    BlurRowsNest(e, img, p.blurx, b.blurx, whole, s.img, s.blurx);
    BlurColsNest(e, p.blurx, p.blury, b.blury, b.sharpen, b.blurx, s.blurx, s.blury);
    SharpenNest(e, img, p.blury, p.sharpen, b.sharpen, whole, b.sharpen, s.img, s.blury, s.sharpen);
    MaskNest(e, img, p.blury, p.sharpen, mask, b.mask, whole, b.sharpen, s.img, s.blury, s.sharpen, s.mask);
  }

  function NaiveBounds(R: int, C: int): Bounds {
    Bounds(Box(2, R + 1, 0, C + 3), Image(R, C), Image(R, C), Image(R, C))
  }

  function Clip(a: Box, clip: Box): Box {
    Box(Max(a.r0, clip.r0), Min(a.r1, clip.r1), Max(a.c0, clip.c0), Min(a.c1, clip.c1))
  }

  function Columns(t1: int, t2: int, lo: int, hi: int): Box {
    Box(8 * t1, 8 * t1 + 7, 512 * t2 + lo, 512 * t2 + hi)
  }

  /** unsharp_mask_polymage.cpp:61-120 */
  function TileBounds(R: int, C: int, t1: int, t2: int): Bounds {
    Bounds(Clip(Columns(t1, t2, 0, 517), Box(2, R + 1, 0, C + 3)), Clip(Columns(t1, t2, 1, 516), Image(R, C)),
           Clip(Columns(t1, t2, 2, 515), Image(R, C)), Clip(Columns(t1, t2, 3, 514), Image(R, C)))
  }

  lemma TileCovers(R: int, C: int, t1: int, t2: int)
    ensures var b := TileBounds(R, C, t1, t2);
            b.Cover() && Whole(R, C).Contains(b.blurx.Grow(2, 2, 0, 0)) && Whole(R, C).Contains(b.sharpen)
  {
  }

  method NewPads<P(0)>(blurx: Box, rest: Box, stray: (int, int, int) -> P) returns (p: Pads<P>)
    requires blurx.r0 <= blurx.r1 + 1 && blurx.c0 <= blurx.c1 + 1 && rest.r0 <= rest.r1 + 1 && rest.c0 <= rest.c1 + 1
    ensures Sized(p.blurx, 3, blurx) && Sized(p.blury, 3, rest) && Sized(p.sharpen, 3, rest)
    ensures p.blurx.buf.data !in {p.blury.buf.data, p.sharpen.buf.data} && p.blury.buf.data != p.sharpen.buf.data
    ensures fresh(p.Data())
  {
    var x := NewWindow(3, blurx, stray);
    var y := NewWindow(3, rest, stray);
    var z := NewWindow(3, rest, stray);
    p := Pads(x, y, z);
  }

  /** the scratchpads' 8 x 518 cells in tile (t1, t2) */
  function TilePad(t1: int, t2: int): Box { Columns(t1, t2, 0, 517) }

  ghost predicate Scratch<P(0)>(p: Pads<P>) {
    && Sized(p.blurx, 3, TilePad(0, 0)) && Sized(p.blury, 3, TilePad(0, 0)) && Sized(p.sharpen, 3, TilePad(0, 0))
    && p.blurx.buf.data !in {p.blury.buf.data, p.sharpen.buf.data} && p.blury.buf.data != p.sharpen.buf.data
  }

  function Moved<P(0)>(p: Pads<P>, t1: int, t2: int): Pads<P> {
    Pads(Window(p.blurx.buf, 8 * t1, 512 * t2), Window(p.blury.buf, 8 * t1, 512 * t2), Window(p.sharpen.buf, 8 * t1, 512 * t2))
  }

  lemma MovedFits<P(0)>(p: Pads<P>, R: int, C: int, t1: int, t2: int)
    requires Scratch(p)
    ensures Moved(p, t1, t2).Ok(TileBounds(R, C, t1, t2)) && Moved(p, t1, t2).Data() == p.Data()
  {
    var b, q := TileBounds(R, C, t1, t2), Moved(p, t1, t2);
    SizedCanStore(q.blurx, 3, TilePad(t1, t2), b.blurx);
    SizedCanStore(q.blury, 3, TilePad(t1, t2), b.blury);
    SizedCanStore(q.sharpen, 3, TilePad(t1, t2), b.sharpen);
  }

  method Tile<P(0, !new)>(e: Kernels<P>, R: int, C: int, img: Window<P>, p: Pads<P>, mask: Window<P>, t1: int, t2: int, ghost s: Stages<P>)
    requires Lawful(e, s) && Known(img, 3, Whole(R, C), s.img) && Scratch(p) && CanStore(mask, 3, Image(R, C))
    requires img.buf.data !in p.Data() && mask.buf.data !in p.Data() && mask.buf.data != img.buf.data
    modifies p.Data(), mask.buf.data
    ensures Known(img, 3, Whole(R, C), s.img) && Known(mask, 3, TileBounds(R, C, t1, t2).mask, s.mask)
    ensures forall k, i, j {:trigger mask.At(k, i, j)} ::
              !TileBounds(R, C, t1, t2).mask.Has(i, j) ==> mask.At(k, i, j) == old(mask.At(k, i, j))
  {
    MovedFits(p, R, C, t1, t2);
    TileCovers(R, C, t1, t2);
    Pipe(e, img, Moved(p, t1, t2), mask, TileBounds(R, C, t1, t2), Whole(R, C), s);
  }

  /** A row of tiles; their masks partition the columns 2 .. C + 1. */
  method TileRow<P(0, !new)>(e: Kernels<P>, R: int, C: int, img: Window<P>, p: Pads<P>, mask: Window<P>, t1: int, ct: int, ghost s: Stages<P>)
    requires Lawful(e, s) && Known(img, 3, Whole(R, C), s.img) && Scratch(p) && CanStore(mask, 3, Image(R, C))
    requires img.buf.data !in p.Data() && mask.buf.data !in p.Data() && mask.buf.data != img.buf.data
    requires -1 <= ct && C + 1 <= 512 * ct + 514
    modifies p.Data(), mask.buf.data
    ensures Known(img, 3, Whole(R, C), s.img) && Known(mask, 3, Clip(Box(8 * t1, 8 * t1 + 7, 2, C + 1), Image(R, C)), s.mask)
    ensures forall k, i, j {:trigger mask.At(k, i, j)} :: !(8 * t1 <= i <= 8 * t1 + 7) ==> mask.At(k, i, j) == old(mask.At(k, i, j))
  {
    var t2 := -1;
    while t2 <= ct
      invariant -1 <= t2 <= ct + 1
      invariant Known(img, 3, Whole(R, C), s.img)
      invariant Known(mask, 3, Clip(Box(8 * t1, 8 * t1 + 7, 2, 512 * t2 + 2), Image(R, C)), s.mask)
      invariant forall k, i, j {:trigger mask.At(k, i, j)} :: !(8 * t1 <= i <= 8 * t1 + 7) ==> mask.At(k, i, j) == old(mask.At(k, i, j))
    {
      Tile(e, R, C, img, p, mask, t1, t2, s);
      t2 := t2 + 1;
    }
  }

  method ScratchRow<P(0, !new)>(e: Kernels<P>, R: int, C: int, img: Window<P>, mask: Window<P>, t1: int,
                                stray: (int, int, int) -> P, ghost s: Stages<P>)
    requires C >= 0 && Lawful(e, s) && Known(img, 3, Whole(R, C), s.img) && CanStore(mask, 3, Image(R, C)) && mask.buf.data != img.buf.data
    modifies mask.buf.data
    ensures Known(img, 3, Whole(R, C), s.img) && Known(mask, 3, Clip(Box(8 * t1, 8 * t1 + 7, 2, C + 1), Image(R, C)), s.mask)
    ensures forall k, i, j {:trigger mask.At(k, i, j)} :: !(8 * t1 <= i <= 8 * t1 + 7) ==> mask.At(k, i, j) == old(mask.At(k, i, j))
  {
    var p := NewPads(TilePad(0, 0), TilePad(0, 0), stray);
    TileRow(e, R, C, img, p, mask, t1, (C + 3) / 512, s);
  }

  /** unsharp_mask_polymage.cpp:53-125 */
  method Tiled<P(0, !new)>(e: Kernels<P>, R: int, C: int, img: Window<P>, stray: (int, int, int) -> P, ghost s: Stages<P>)
    returns (mask: Window<P>)
    requires R >= 0 && C >= 0 && Lawful(e, s) && Known(img, 3, Whole(R, C), s.img)
    ensures Known(mask, 3, Image(R, C), s.mask) && CanStore(mask, 3, Image(R, C))
  {
    mask := NewWindow(3, Image(R, C), stray);
    var t1 := 0;
    while t1 <= (R + 1) / 8
      invariant 0 <= t1 <= (R + 1) / 8 + 1
      invariant Known(img, 3, Whole(R, C), s.img)
      invariant Known(mask, 3, Clip(Box(2, 8 * t1 - 1, 2, C + 1), Image(R, C)), s.mask)
    {
      ScratchRow(e, R, C, img, mask, t1, stray, s);
      t1 := t1 + 1;
    }
  }

  /** unsharp_mask_polymage_naive.cpp:60-155 */
  method Naive<P(0, !new)>(e: Kernels<P>, R: int, C: int, img: Window<P>, stray: (int, int, int) -> P, ghost s: Stages<P>)
    returns (mask: Window<P>)
    requires R >= 0 && C >= 0 && Lawful(e, s) && Known(img, 3, Whole(R, C), s.img)
    ensures Known(mask, 3, Image(R, C), s.mask) && CanStore(mask, 3, Image(R, C))
  {
    mask := NewWindow(3, Image(R, C), stray);
    var p := NewPads(Box(2, R + 1, 0, C + 3), Image(R, C), stray);
    SizedCanStore(p.blurx, 3, Box(2, R + 1, 0, C + 3), Box(2, R + 1, 0, C + 3));
    SizedCanStore(p.blury, 3, Image(R, C), Image(R, C));
    SizedCanStore(p.sharpen, 3, Image(R, C), Image(R, C));
    Pipe(e, img, p, mask, NaiveBounds(R, C), Whole(R, C), s);
  }

  /** For every size, image, threshold, weight and arithmetic, whatever is left in scratch or lies beyond its rows. */
  method TiledEqualsNaive<P(0, !new)>(e: Kernels<P>, R: int, C: int, img: Window<P>,
                                      stray: (int, int, int) -> P, stray': (int, int, int) -> P)
    returns (tiled: Window<P>, naive: Window<P>)
    requires R >= 0 && C >= 0 && img.buf.Valid()
    ensures CanStore(tiled, 3, Image(R, C)) && CanStore(naive, 3, Image(R, C))
    ensures forall k, i, j :: 0 <= k <= 2 && 2 <= i <= R + 1 && 2 <= j <= C + 1 ==> tiled.At(k, i, j) == naive.At(k, i, j)
  {
    ghost var pixels := Snapshot(img);
    ghost var s := MakeStages(e, pixels);
    tiled := Tiled(e, R, C, img, stray, s);
    naive := Naive(e, R, C, img, stray', s);
  }
}

/** Over the reals, the unsharp mask changes no pixel around which the image is affine: the blur's weights are symmetric
    and add up to 1, and sharpening takes away what it adds. */
module UnsharpAffine {
  import opened Arithmetic
  import opened Buffers
  import opened UnsharpSpec
  import opened UnsharpEqual

  /** On the 5 x 5 pixels around (i, j), plane k grows by b a row and by c a column. */
  ghost predicate AffineAround(f: Stage<real>, k: int, i: int, j: int, b: real, c: real) {
    forall u, v {:trigger f(k, u, v)} :: i - 2 <= u <= i + 2 && j - 2 <= v <= j + 2 ==>
      f(k, u, v) == f(k, i, j) + (u - i) as real * b + (v - j) as real * c
  }

  lemma BlurAffine(exp: real -> real, threshold: real, weight: real, x: real, d: real)
    ensures SourceKernels(Reals(exp), threshold, weight).blur(x - 2.0 * d, x - d, x, x + d, x + 2.0 * d) == x
  {
  }

  lemma SharpenKeeps(exp: real -> real, threshold: real, weight: real, x: real)
    ensures SourceKernels(Reals(exp), threshold, weight).sharpen(x, x) == x
  {
  }

  lemma RowsAffine(exp: real -> real, threshold: real, weight: real, f: Stage<real>, k: int, i: int, j: int, v: int, b: real, c: real)
    requires AffineAround(f, k, i, j, b, c) && j - 2 <= v <= j + 2
    ensures BlurRows(SourceKernels(Reals(exp), threshold, weight), f, k, i, v) == f(k, i, j) + (v - j) as real * c
  {
    var x := f(k, i, j) + (v - j) as real * c;
    assert f(k, i - 2, v) == x - 2.0 * b && f(k, i - 1, v) == x - b && f(k, i, v) == x && f(k, i + 1, v) == x + b && f(k, i + 2, v) == x + 2.0 * b;
    BlurAffine(exp, threshold, weight, x, b);
  }

  lemma ColsAffine(exp: real -> real, threshold: real, weight: real, g: Stage<real>, k: int, i: int, j: int, x: real, c: real)
    requires forall v {:trigger g(k, i, v)} :: j - 2 <= v <= j + 2 ==> g(k, i, v) == x + (v - j) as real * c
    ensures BlurCols(SourceKernels(Reals(exp), threshold, weight), g, k, i, j) == x
  {
    assert g(k, i, j - 2) == x - 2.0 * c && g(k, i, j - 1) == x - c && g(k, i, j) == x && g(k, i, j + 1) == x + c && g(k, i, j + 2) == x + 2.0 * c;
    BlurAffine(exp, threshold, weight, x, c);
  }

  lemma AffineKept(exp: real -> real, threshold: real, weight: real, s: Stages<real>, k: int, i: int, j: int, b: real, c: real)
    requires Lawful(SourceKernels(Reals(exp), threshold, weight), s) && AffineAround(s.img, k, i, j, b, c)
    ensures s.mask(k, i, j) == s.img(k, i, j)
  {
    var e, x := SourceKernels(Reals(exp), threshold, weight), s.img(k, i, j);
    forall v | j - 2 <= v <= j + 2 ensures s.blurx(k, i, v) == x + (v - j) as real * c {
      RowsAffine(exp, threshold, weight, s.img, k, i, j, v, b, c);
    }
    ColsAffine(exp, threshold, weight, s.blurx, k, i, j, x, c);
    assert s.blury(k, i, j) == x;
    SharpenKeeps(exp, threshold, weight, x);
    assert s.sharpen(k, i, j) == x;
  }

  ghost predicate WindowAffineAround(img: Window<real>, k: int, i: int, j: int, b: real, c: real)
    requires img.buf.Valid()
    reads img.buf.data
  {
    forall u, v {:trigger img.At(k, u, v)} :: i - 2 <= u <= i + 2 && j - 2 <= v <= j + 2 ==>
      img.At(k, u, v) == img.At(k, i, j) + (u - i) as real * b + (v - j) as real * c
  }

  /** So the tiled code keeps such pixels, whatever the threshold and the weight. */
  method TiledKeepsAffine(R: int, C: int, img: Window<real>, exp: real -> real, threshold: real, weight: real, stray: (int, int, int) -> real)
    returns (mask: Window<real>)
    requires R >= 0 && C >= 0 && img.buf.Valid()
    ensures CanStore(mask, 3, Image(R, C))
    ensures forall k, i, j, b, c {:trigger WindowAffineAround(img, k, i, j, b, c)} ::
              0 <= k < 3 && Image(R, C).Has(i, j) && WindowAffineAround(img, k, i, j, b, c) ==> mask.At(k, i, j) == img.At(k, i, j)
  {
    var e := SourceKernels(Reals(exp), threshold, weight);
    ghost var pixels := Snapshot(img);
    ghost var s := MakeStages(e, pixels);
    mask := Tiled(e, R, C, img, stray, s);
    forall k, i, j, b, c {:trigger WindowAffineAround(img, k, i, j, b, c)}
      | 0 <= k < 3 && Image(R, C).Has(i, j) && WindowAffineAround(img, k, i, j, b, c)
      ensures mask.At(k, i, j) == img.At(k, i, j)
    {
      assert AffineAround(pixels, k, i, j, b, c);
      AffineKept(exp, threshold, weight, s, k, i, j, b, c);
    }
  }
}

/** Over the reals, the unsharp mask in one formula. */
module UnsharpFormula {
  import opened Arithmetic
  import opened Buffers
  import opened UnsharpSpec
  import opened UnsharpEqual

  /** five pixels of a column, weighted 1 4 6 4 1 */
  function Column(f: Stage<real>, k: int, i: int, j: int): real {
    f(k, i - 2, j) + 4.0 * f(k, i - 1, j) + 6.0 * f(k, i, j) + 4.0 * f(k, i + 1, j) + f(k, i + 2, j)
  }

  /** the 5 x 5 binomial mean around (i, j) */
  function Blurred(f: Stage<real>, k: int, i: int, j: int): real {
    (Column(f, k, i, j - 2) + 4.0 * Column(f, k, i, j - 1) + 6.0 * Column(f, k, i, j) + 4.0 * Column(f, k, i, j + 1) + Column(f, k, i, j + 2)) / 256.0
  }

  /** Differences below the threshold are left, others are exaggerated. */
  function Sharpened(threshold: real, weight: real, v: real, blurred: real): real {
    var d := v - blurred;
    if -threshold < d < threshold then v else v + weight * d
  }

  lemma BlurIs(exp: real -> real, threshold: real, weight: real, a: real, b: real, c: real, d: real, f: real)
    ensures 16.0 * SourceKernels(Reals(exp), threshold, weight).blur(a, b, c, d, f) == a + 4.0 * b + 6.0 * c + 4.0 * d + f
  {
  }

  lemma BluryIs(exp: real -> real, threshold: real, weight: real, f: Stage<real>, g: Stage<real>, h: Stage<real>, k: int, i: int, j: int)
    requires BlurRowsLaw(SourceKernels(Reals(exp), threshold, weight), f, g) && BlurColsLaw(SourceKernels(Reals(exp), threshold, weight), g, h)
    ensures h(k, i, j) == Blurred(f, k, i, j)
  {
    forall v | j - 2 <= v <= j + 2 ensures 16.0 * g(k, i, v) == Column(f, k, i, v) {
      BlurIs(exp, threshold, weight, f(k, i - 2, v), f(k, i - 1, v), f(k, i, v), f(k, i + 1, v), f(k, i + 2, v));
    }
    BlurIs(exp, threshold, weight, g(k, i, j - 2), g(k, i, j - 1), g(k, i, j), g(k, i, j + 1), g(k, i, j + 2));
  }

  lemma MaskIs(exp: real -> real, threshold: real, weight: real, v: real, b: real)
    ensures var e := SourceKernels(Reals(exp), threshold, weight);
            e.mask(v, b, e.sharpen(v, b)) == Sharpened(threshold, weight, v, b)
  {
    var d := v - b;
    assert v * (1.0 + weight) + b * (-weight) == v + weight * d;
  }

  lemma FormulaHolds(exp: real -> real, threshold: real, weight: real, s: Stages<real>, k: int, i: int, j: int)
    requires Lawful(SourceKernels(Reals(exp), threshold, weight), s)
    ensures s.mask(k, i, j) == Sharpened(threshold, weight, s.img(k, i, j), Blurred(s.img, k, i, j))
  {
    BluryIs(exp, threshold, weight, s.img, s.blurx, s.blury, k, i, j);
    MaskIs(exp, threshold, weight, s.img(k, i, j), s.blury(k, i, j));
  }

  /** The tiled code computes it, for every threshold and weight. */
  method TiledSharpens(R: int, C: int, img: Window<real>, exp: real -> real, threshold: real, weight: real,
                       stray: (int, int, int) -> real, ghost pixels: Stage<real>)
    returns (mask: Window<real>)
    requires R >= 0 && C >= 0 && Known(img, 3, Whole(R, C), pixels)
    ensures CanStore(mask, 3, Image(R, C))
    ensures forall k, i, j {:trigger mask.At(k, i, j)} :: 0 <= k < 3 && Image(R, C).Has(i, j) ==>
              mask.At(k, i, j) == Sharpened(threshold, weight, pixels(k, i, j), Blurred(pixels, k, i, j))
  {
    var e := SourceKernels(Reals(exp), threshold, weight);
    ghost var s := MakeStages(e, pixels);
    mask := Tiled(e, R, C, img, stray, s);
    forall k, i, j | 0 <= k < 3 && Image(R, C).Has(i, j)
      ensures mask.At(k, i, j) == Sharpened(threshold, weight, pixels(k, i, j), Blurred(pixels, k, i, j))
    {
      FormulaHolds(exp, threshold, weight, s, k, i, j);
      assert mask.At(k, i, j) == s.mask(k, i, j);
    }
  }
}
