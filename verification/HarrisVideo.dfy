/** The tiled harris_polymage.cpp and harris_naive.cpp of the video demo give the same response, for all sizes. */
module HarrisVideo {
  import opened Buffers
  import opened HarrisSpec
  import opened HarrisPipe

  /** the image with its border */
  function Whole(R: int, C: int): Box { Box(0, R + 1, 0, C + 1) }

  /** where the response is written */
  function Image(R: int, C: int): Box { Box(2, R - 1, 2, C - 1) }

  function NaiveBounds(R: int, C: int): Bounds {
    Bounds(Whole(R, C), Box(1, R, 1, C), Box(1, R, 1, C), Image(R, C), Image(R, C), Image(R, C))
  }

  function Clip(a: Box, clip: Box): Box {
    Box(Max(a.r0, clip.r0), Min(a.r1, clip.r1), Max(a.c0, clip.c0), Min(a.c1, clip.c1))
  }

  /** Tile (t0, t1) writes 16 x 128 cells; every stage before keeps as much more as the next one reads. */
  function TileNest(t0: int, t1: int, n: int): Box {
    Box(16 * t0 + n, 16 * t0 + 25 - n, 128 * t1 + n, 128 * t1 + 137 - n)
  }

  function TileBounds(R: int, C: int, t0: int, t1: int): Bounds {
    Bounds(Clip(TileNest(t0, t1, 0), Whole(R, C)), Clip(TileNest(t0, t1, 1), Box(1, R, 1, C)),
           Clip(TileNest(t0, t1, 2), Box(1, R, 1, C)), Clip(TileNest(t0, t1, 3), Image(R, C)),
           Clip(TileNest(t0, t1, 4), Image(R, C)), Clip(TileNest(t0, t1, 5), Image(R, C)))
  }

  lemma TileCovers(R: int, C: int, t0: int, t1: int)
    ensures TileBounds(R, C, t0, t1).Cover() && Whole(R, C).Contains(TileBounds(R, C, t0, t1).gray)
  {
  }

  /** eleven windows over one box */
  ghost predicate AllSized<P(0)>(p: Pads<P>, box: Box) {
    && Sized(p.gray, 1, box) && Sized(p.ix, 1, box) && Sized(p.iy, 1, box)
    && Sized(p.ixx, 1, box) && Sized(p.iyy, 1, box) && Sized(p.ixy, 1, box)
    && Sized(p.sxx, 1, box) && Sized(p.syy, 1, box) && Sized(p.sxy, 1, box)
    && Sized(p.det, 1, box) && Sized(p.trace, 1, box)
  }

  method NewThree<P(0)>(box: Box, stray: (int, int, int) -> P) returns (a: Window<P>, b: Window<P>, c: Window<P>)
    requires box.r0 <= box.r1 + 1 && box.c0 <= box.c1 + 1
    ensures Sized(a, 1, box) && Sized(b, 1, box) && Sized(c, 1, box)
    ensures a.buf.data != b.buf.data && a.buf.data != c.buf.data && b.buf.data != c.buf.data
    ensures fresh({a.buf.data, b.buf.data, c.buf.data})
  {
    a := NewWindow(1, box, stray);
    b := NewWindow(1, box, stray);
    c := NewWindow(1, box, stray);
  }

  method NewPads<P(0)>(box: Box, stray: (int, int, int) -> P) returns (p: Pads<P>)
    requires box.r0 <= box.r1 + 1 && box.c0 <= box.c1 + 1
    ensures AllSized(p, box) && p.Apart() && fresh(p.Data())
  {
    var gray, ix, iy := NewThree(box, stray);
    var ixx, iyy, ixy := NewThree(box, stray);
    var sxx, syy, sxy := NewThree(box, stray);
    var det := NewWindow(1, box, stray);
    var trace := NewWindow(1, box, stray);
    p := Pads(gray, ix, iy, ixx, iyy, ixy, sxx, syy, sxy, det, trace);
  }

  lemma PadsFit<P(0)>(p: Pads<P>, box: Box, b: Bounds)
    requires AllSized(p, box) && p.Apart()
    requires box.Contains(b.gray) && box.Contains(b.slopes) && box.Contains(b.products)
    requires box.Contains(b.sums) && box.Contains(b.forms)
    ensures p.Ok(b)
  {
    SizedCanStore(p.gray, 1, box, b.gray);
    SizedCanStore(p.ix, 1, box, b.slopes);
    SizedCanStore(p.iy, 1, box, b.slopes);
    SizedCanStore(p.ixx, 1, box, b.products);
    SizedCanStore(p.iyy, 1, box, b.products);
    SizedCanStore(p.ixy, 1, box, b.products);
    SizedCanStore(p.sxx, 1, box, b.sums);
    SizedCanStore(p.syy, 1, box, b.sums);
    SizedCanStore(p.sxy, 1, box, b.sums);
    SizedCanStore(p.det, 1, box, b.forms);
    SizedCanStore(p.trace, 1, box, b.forms);
  }

  function MovedTo<P(0)>(w: Window<P>, t0: int, t1: int): Window<P> { Window(w.buf, 16 * t0, 128 * t1) }

  function Moved<P(0)>(p: Pads<P>, t0: int, t1: int): Pads<P> {
    Pads(MovedTo(p.gray, t0, t1), MovedTo(p.ix, t0, t1), MovedTo(p.iy, t0, t1),
         MovedTo(p.ixx, t0, t1), MovedTo(p.iyy, t0, t1), MovedTo(p.ixy, t0, t1),
         MovedTo(p.sxx, t0, t1), MovedTo(p.syy, t0, t1), MovedTo(p.sxy, t0, t1), MovedTo(p.det, t0, t1), MovedTo(p.trace, t0, t1))
  }

  /** Every store of a tile stays within the 26 x 138 scratchpads. So does every read: by `TileCovers` a nest reads only
      what earlier ones stored. */
  lemma MovedFits<P(0)>(p: Pads<P>, R: int, C: int, t0: int, t1: int)
    requires AllSized(p, TileNest(0, 0, 0)) && p.Apart()
    ensures Moved(p, t0, t1).Ok(TileBounds(R, C, t0, t1)) && Moved(p, t0, t1).Data() == p.Data()
  {
    PadsFit(Moved(p, t0, t1), TileNest(t0, t1, 0), TileBounds(R, C, t0, t1));
  }

  ghost predicate Given<P(0, !new)>(e: Kernels<P>, R: int, C: int, rgb: Window<P>, f: Stage<P>, s: Stages<P>)
    reads rgb.buf.data
  {
    R >= 0 && C >= 0 && Lawful(e, s) && GreyLaw(e, f, s.gray) && Known(rgb, 3, Whole(R, C), f)
  }

  method Tile<P(0, !new)>(e: Kernels<P>, R: int, C: int, rgb: Window<P>, p: Pads<P>, harris: Window<P>, t0: int, t1: int,
                          ghost f: Stage<P>, ghost s: Stages<P>)
    requires Given(e, R, C, rgb, f, s) && AllSized(p, TileNest(0, 0, 0)) && p.Apart() && CanStore(harris, 1, Whole(R, C))
    requires rgb.buf.data !in p.Data() && harris.buf.data !in p.Data() && harris.buf.data != rgb.buf.data
    modifies p.Data(), harris.buf.data
    ensures Given(e, R, C, rgb, f, s)
    ensures Known(harris, 1, TileBounds(R, C, t0, t1).harris, s.harris)
    ensures forall k, i, j {:trigger harris.At(k, i, j)} ::
              !(k == 0 && TileBounds(R, C, t0, t1).harris.Has(i, j)) ==> harris.At(k, i, j) == old(harris.At(k, i, j))
  {
    TileCovers(R, C, t0, t1);
    MovedFits(p, R, C, t0, t1);
    Pipe(e, rgb, Moved(p, t0, t1), harris, TileBounds(R, C, t0, t1), Whole(R, C), f, s);
  }

  /** a row of tiles over one set of scratchpads */
  method TileRow<P(0, !new)>(e: Kernels<P>, R: int, C: int, rgb: Window<P>, p: Pads<P>, harris: Window<P>, t0: int, ct: int,
                             ghost f: Stage<P>, ghost s: Stages<P>)
    requires Given(e, R, C, rgb, f, s) && AllSized(p, TileNest(0, 0, 0)) && p.Apart() && CanStore(harris, 1, Whole(R, C))
    requires rgb.buf.data !in p.Data() && harris.buf.data !in p.Data() && harris.buf.data != rgb.buf.data
    requires -1 <= ct && C - 1 <= 128 * ct + 132
    modifies p.Data(), harris.buf.data
    ensures Given(e, R, C, rgb, f, s)
    ensures Known(harris, 1, Clip(Box(16 * t0 + 5, 16 * t0 + 20, 2, C - 1), Image(R, C)), s.harris)
    ensures forall k, i, j {:trigger harris.At(k, i, j)} ::
              !(k == 0 && Image(R, C).Has(i, j) && 16 * t0 + 5 <= i <= 16 * t0 + 20) ==> harris.At(k, i, j) == old(harris.At(k, i, j))
  {
    var t1 := -1;
    while t1 <= ct
      invariant -1 <= t1 <= ct + 1
      invariant Given(e, R, C, rgb, f, s)
      invariant Known(harris, 1, Clip(Box(16 * t0 + 5, 16 * t0 + 20, 2, 128 * t1 + 4), Image(R, C)), s.harris)
      invariant forall k, i, j {:trigger harris.At(k, i, j)} ::
                  !(k == 0 && Image(R, C).Has(i, j) && 16 * t0 + 5 <= i <= 16 * t0 + 20) ==> harris.At(k, i, j) == old(harris.At(k, i, j))
    {
      Tile(e, R, C, rgb, p, harris, t0, t1, f, s);
      t1 := t1 + 1;
    }
  }

  method ScratchRow<P(0, !new)>(e: Kernels<P>, R: int, C: int, rgb: Window<P>, harris: Window<P>, t0: int,
                                stray: (int, int, int) -> P, ghost f: Stage<P>, ghost s: Stages<P>)
    requires Given(e, R, C, rgb, f, s) && CanStore(harris, 1, Whole(R, C)) && harris.buf.data != rgb.buf.data
    modifies harris.buf.data
    ensures Given(e, R, C, rgb, f, s)
    ensures Known(harris, 1, Clip(Box(16 * t0 + 5, 16 * t0 + 20, 2, C - 1), Image(R, C)), s.harris)
    ensures forall k, i, j {:trigger harris.At(k, i, j)} ::
              !(k == 0 && Image(R, C).Has(i, j) && 16 * t0 + 5 <= i <= 16 * t0 + 20) ==> harris.At(k, i, j) == old(harris.At(k, i, j))
  {
    var p := NewPads(TileNest(0, 0, 0), stray);
    TileRow(e, R, C, rgb, p, harris, t0, (C + 1) / 128, f, s);
  }

  /** harris_polymage.cpp:55-216 */
  method Tiled<P(0, !new)>(e: Kernels<P>, R: int, C: int, rgb: Window<P>, harris: Window<P>, stray: (int, int, int) -> P,
                           ghost f: Stage<P>, ghost s: Stages<P>)
    requires Given(e, R, C, rgb, f, s) && CanStore(harris, 1, Whole(R, C)) && harris.buf.data != rgb.buf.data
    modifies harris.buf.data
    ensures Given(e, R, C, rgb, f, s) && Known(harris, 1, Image(R, C), s.harris)
    ensures forall k, i, j {:trigger harris.At(k, i, j)} ::
              !(k == 0 && Image(R, C).Has(i, j)) ==> harris.At(k, i, j) == old(harris.At(k, i, j))
  {
    var t0 := -1;
    while t0 <= (R + 1) / 16
      invariant -1 <= t0 <= (R + 1) / 16 + 1
      invariant Given(e, R, C, rgb, f, s)
      invariant Known(harris, 1, Clip(Box(2, 16 * t0 + 4, 2, C - 1), Image(R, C)), s.harris)
      invariant forall k, i, j {:trigger harris.At(k, i, j)} ::
                  !(k == 0 && Image(R, C).Has(i, j)) ==> harris.At(k, i, j) == old(harris.At(k, i, j))
    {
      ScratchRow(e, R, C, rgb, harris, t0, stray, f, s);
      t0 := t0 + 1;
    }
  }

  /** harris_naive.cpp:78-135 */
  method Naive<P(0, !new)>(e: Kernels<P>, R: int, C: int, rgb: Window<P>, harris: Window<P>, stray: (int, int, int) -> P,
                           ghost f: Stage<P>, ghost s: Stages<P>)
    requires Given(e, R, C, rgb, f, s) && CanStore(harris, 1, Whole(R, C)) && harris.buf.data != rgb.buf.data
    modifies harris.buf.data
    ensures Known(harris, 1, Image(R, C), s.harris)
    ensures forall k, i, j {:trigger harris.At(k, i, j)} ::
              !(k == 0 && Image(R, C).Has(i, j)) ==> harris.At(k, i, j) == old(harris.At(k, i, j))
  {
    var p := NewPads(Whole(R, C), stray);
    PadsFit(p, Whole(R, C), NaiveBounds(R, C));
    Pipe(e, rgb, p, harris, NaiveBounds(R, C), Whole(R, C), f, s);
  }

  /** Two output buffers that start alike end alike, cell by cell, borders included. */
  method TiledEqualsNaive<P(0, !new)>(e: Kernels<P>, R: int, C: int, rgb: Window<P>, tiled: Window<P>, naive: Window<P>,
                                      stray: (int, int, int) -> P, stray': (int, int, int) -> P)
    requires R >= 0 && C >= 0 && rgb.buf.Valid() && CanStore(tiled, 1, Whole(R, C)) && CanStore(naive, 1, Whole(R, C))
    requires tiled.buf.data != rgb.buf.data && naive.buf.data != rgb.buf.data && tiled.buf.data != naive.buf.data
    requires forall i, j {:trigger tiled.At(0, i, j)} {:trigger naive.At(0, i, j)} :: tiled.At(0, i, j) == naive.At(0, i, j)
    modifies tiled.buf.data, naive.buf.data
    ensures forall i, j :: tiled.At(0, i, j) == naive.At(0, i, j)
  {
    ghost var f := Snapshot(rgb);
    ghost var gray := MakeGrey(e, f);
    ghost var s := MakeStages(e, gray);
    Tiled(e, R, C, rgb, tiled, stray, f, s);
    Naive(e, R, C, rgb, naive, stray', f, s);
  }
}
