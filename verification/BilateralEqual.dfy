/** The tiled bilateral_polymage.cpp and bilateral_naive.cpp give the same filtered image over the same grey one, for
    all sizes. */
module BilateralEqual {
  import opened Buffers
  import opened BilateralSpec
  import opened BilateralPipe

  /** What each nest stores; blurs in grid cells, the rest in pixels. */
  datatype Bounds = Bounds(blurz: Box, blurx: Box, blury: Box, interpolated: Box, filtered: Box) {
    /** b is the grid cells that the filtered pixels lie between; each nest stores what they depend on. */
    predicate Cover(b: Box) {
      && blurz.Contains(b.Grow(2, 2, 2, 2)) && blurx.Contains(b.Grow(0, 0, 2, 2)) && blury.Contains(b)
      && interpolated.Contains(filtered) && Inside(filtered, b)
    }
  }

  datatype Pads<!P(0)> = Pads(blurz: Window<P>, blurx: Window<P>, blury: Window<P>, interpolated: Window<P>) {
    function Data(): set<array<P>> {
      {blurz.buf.data, blurx.buf.data, blury.buf.data, interpolated.buf.data}
    }

    predicate Apart() {
      && blurz.buf.data !in {blurx.buf.data, blury.buf.data, interpolated.buf.data}
      && blurx.buf.data !in {blury.buf.data, interpolated.buf.data} && blury.buf.data != interpolated.buf.data
    }

    ghost predicate Ok(b: Bounds) {
      && Apart()
      && CanStore(blurz, 22, b.blurz) && CanStore(blurx, 22, b.blurx) && CanStore(blury, 22, b.blury)
      && CanStore(interpolated, 2, b.interpolated)
    }
  }

  function Whole(R: int, C: int): Box { Box(0, R - 1, 0, C - 1) }

  function GridBox(R: int, C: int): Box { Box(1, (R - 9) / 8, 1, (C - 9) / 8) }

  /** the filtered pixels */
  function Image(R: int, C: int): Box { Box(24, R - 33, 24, C - 33) }

  /** What both pipelines start their tiles from. */
  ghost predicate Ready<P(0, !new)>(e: Kernels<P>, s: Stages<P>, R: int, C: int, gray: Window<P>, grid: Window<P>)
    reads gray.buf.data, grid.buf.data
  {
    && R >= 57 && C >= 57 && Lawful(e, s) && Acceptable(e, s, R, C)
    && Known(gray, 1, Whole(R, C), s.gray) && Known(grid, 30, GridBox(R, C), s.grid)
  }

  /** Grey values are in [0, 1), so that bins and levels are in range. */
  ghost predicate Acceptable<P(!new)>(e: Kernels<P>, s: Stages<P>, R: int, C: int) {
    && e.side <= 9
    && (forall i, j {:trigger s.gray(0, i, j)} :: Whole(R, C).Has(i, j) ==>
          0 <= e.bin(s.gray(0, i, j)) <= 12 && 0 <= e.level(s.gray(0, i, j)) <= 9)
  }

  /** the stages between the grid and the filtered image */
  method Blurs<P(0, !new)>(e: Kernels<P>, grid: Window<P>, p: Pads<P>, b: Bounds,
                           ghost core: Box, ghost have: Box, ghost s: Stages<P>)
    requires Lawful(e, s) && Known(grid, 30, have, s.grid) && have.Contains(core.Grow(2, 2, 2, 2))
    requires b.Cover(core) && p.Ok(b) && grid.buf.data !in p.Data()
    modifies p.blurz.buf.data, p.blurx.buf.data, p.blury.buf.data
    ensures Known(p.blury, 22, core, s.blury)
  {
    BlurZNest(e, grid, p.blurz, b.blurz, core.Grow(2, 2, 2, 2), have, s.grid, s.blurz);
    BlurRowsNest(e, p.blurz, p.blurx, b.blurx, core.Grow(0, 0, 2, 2), core.Grow(2, 2, 2, 2), s.blurz, s.blurx);
    BlurColsNest(e, p.blurx, p.blury, b.blury, core, core.Grow(0, 0, 2, 2), s.blurx, s.blury);
  }

  /** `emit` is the guard of the last nest. */
  method Output<P(0, !new)>(e: Kernels<P>, R: int, C: int, gray: Window<P>, blury: Window<P>, interpolated: Window<P>,
                            filtered: Window<P>, b: Bounds, emit: bool, ghost core: Box, ghost s: Stages<P>)
    requires SliceLaw(e, s.gray, s.blury, s.interpolated) && NormalLaw(e, s.interpolated, s.gray, s.filtered)
    requires Known(gray, 1, Whole(R, C), s.gray) && Acceptable(e, s, R, C) && Known(blury, 22, core, s.blury)
    requires b.Cover(core) && Whole(R, C).Contains(b.filtered)
    requires CanStore(interpolated, 2, b.interpolated) && CanStore(filtered, 1, b.filtered)
    requires interpolated.buf.data !in {gray.buf.data, blury.buf.data, filtered.buf.data} && filtered.buf.data != gray.buf.data
    modifies interpolated.buf.data, filtered.buf.data
    ensures emit ==> Holds(filtered, 1, b.filtered, s.filtered)
    ensures forall k, i, j {:trigger filtered.At(k, i, j)} ::
              !(emit && k == 0 && b.filtered.Has(i, j)) ==> filtered.At(k, i, j) == old(filtered.At(k, i, j))
  {
    SliceNest(e, gray, blury, interpolated, b.interpolated, b.filtered, Whole(R, C), core, s.gray, s.blury, s.interpolated);
    if emit {
      NormalNest(e, interpolated, gray, filtered, b.filtered, Whole(R, C), s.interpolated, s.gray, s.filtered);
    }
  }

  method Pipe<P(0, !new)>(e: Kernels<P>, R: int, C: int, gray: Window<P>, grid: Window<P>, p: Pads<P>, filtered: Window<P>,
                          b: Bounds, emit: bool, ghost core: Box, ghost s: Stages<P>)
    requires Ready(e, s, R, C, gray, grid) && GridBox(R, C).Contains(core.Grow(2, 2, 2, 2))
    requires b.Cover(core) && p.Ok(b) && CanStore(filtered, 1, b.filtered) && Whole(R, C).Contains(b.filtered)
    requires gray.buf.data !in p.Data() && grid.buf.data !in p.Data() && filtered.buf.data !in p.Data()
    requires filtered.buf.data != gray.buf.data && filtered.buf.data != grid.buf.data
    modifies p.Data(), filtered.buf.data
    ensures Ready(e, s, R, C, gray, grid)
    ensures emit ==> Holds(filtered, 1, b.filtered, s.filtered)
    ensures forall k, i, j {:trigger filtered.At(k, i, j)} ::
              !(emit && k == 0 && b.filtered.Has(i, j)) ==> filtered.At(k, i, j) == old(filtered.At(k, i, j))
  {
    Blurs(e, grid, p, b, core, GridBox(R, C), s);
    Output(e, R, C, gray, p.blury, p.interpolated, filtered, b, emit, core, s);
  }

  // The naive code: bilateral_naive.cpp:204-271.

  function NaiveBounds(R: int, C: int): Bounds {
    Bounds(Box(1, (R - 9) / 8, 1, (C - 9) / 8), Box(3, (R - 25) / 8, 1, (C - 9) / 8), Box(3, (R - 25) / 8, 3, (C - 25) / 8),
           Image(R, C), Image(R, C))
  }

  function Core(R: int, C: int): Box { Box(3, (R - 25) / 8, 3, (C - 25) / 8) }

  lemma Coarse(n: int)
    requires n >= 57
    ensures 4 <= (n - 25) / 8 && (n - 25) / 8 + 2 == (n - 9) / 8 && n - 33 <= 8 * ((n - 25) / 8) - 1
    ensures 8 * ((n - 9) / 8) + 4 <= n - 1
  {
  }

  lemma NaiveCovers(R: int, C: int)
    requires R >= 57 && C >= 57
    ensures NaiveBounds(R, C).Cover(Core(R, C)) && GridBox(R, C).Contains(Core(R, C).Grow(2, 2, 2, 2))
  {
    Coarse(R);
    Coarse(C);
  }

  // The tiled code: every nest's bounds in tile (t1, t2), clipped to the stage:
  // bilateral_polymage.cpp:209-294.

  function Clip(a: Box, clip: Box): Box {
    Box(Max(a.r0, clip.r0), Min(a.r1, clip.r1), Max(a.c0, clip.c0), Min(a.c1, clip.c1))
  }

  function TileBounds(R: int, C: int, t1: int, t2: int): Bounds {
    var n := NaiveBounds(R, C);
    Bounds(Clip(Box(8 * t1, 8 * t1 + 12, 32 * t2, 32 * t2 + 38), n.blurz),
           Clip(Box(8 * t1 + 1, 8 * t1 + 12, 32 * t2 + 1, 32 * t2 + 37), n.blurx),
           Clip(Box(8 * t1 + 1, 8 * t1 + 11, 32 * t2 + 2, 32 * t2 + 36), n.blury),
           Clip(Box(64 * t1 + 12, 64 * t1 + 85, 256 * t2 + 18, 256 * t2 + 287), Image(R, C)),
           TilePixels(R, C, t1, t2))
  }

  function TilePixels(R: int, C: int, t1: int, t2: int): Box {
    Clip(Box(64 * t1 + 16, 64 * t1 + 79, 256 * t2 + 24, 256 * t2 + 279), Image(R, C))
  }

  /** The tile's blurs also store a row above, a row below and a column on either side of these cells, and blurx one
      more row; what they read there may be stale or outside the scratchpad, and is not used. */
  function TileCore(R: int, C: int, t1: int, t2: int): Box {
    Clip(Box(8 * t1 + 2, 8 * t1 + 10, 32 * t2 + 3, 32 * t2 + 35), Core(R, C))
  }

  lemma TileCovers(R: int, C: int, t1: int, t2: int)
    requires R >= 57 && C >= 57 && -1 <= t1 && -1 <= t2
    ensures TileBounds(R, C, t1, t2).Cover(TileCore(R, C, t1, t2))
    ensures GridBox(R, C).Contains(TileCore(R, C, t1, t2).Grow(2, 2, 2, 2))
  {
    Coarse(R);
    Coarse(C);
  }

  // Scratchpads keep their contents and move with the tile.

  /** blurz, blurx, blury of 13 x 39 grid cells and interpolated of 104 x 312 pixels */
  ghost predicate ScratchPads<P(0)>(p: Pads<P>) {
    && p.Apart()
    && p.blurz.buf.Valid() && Shape(p.blurz.buf, 22, 13, 39) && p.blurx.buf.Valid() && Shape(p.blurx.buf, 22, 13, 39)
    && p.blury.buf.Valid() && Shape(p.blury.buf, 22, 13, 39)
    && p.interpolated.buf.Valid() && Shape(p.interpolated.buf, 2, 104, 312)
  }

  method NewScratch<P(0)>(stray: (int, int, int) -> P) returns (p: Pads<P>)
    ensures ScratchPads(p) && fresh(p.Data())
  {
    var blurz := NewWindow(22, Box(0, 12, 0, 38), stray);
    var blurx := NewWindow(22, Box(0, 12, 0, 38), stray);
    var blury := NewWindow(22, Box(0, 12, 0, 38), stray);
    var interpolated := NewWindow(2, Box(0, 103, 0, 311), stray);
    p := Pads(blurz, blurx, blury, interpolated);
  }

  function Moved<P(0)>(p: Pads<P>, t1: int, t2: int): Pads<P> {
    Pads(Window(p.blurz.buf, 8 * t1, 32 * t2), Window(p.blurx.buf, 8 * t1, 32 * t2), Window(p.blury.buf, 8 * t1, 32 * t2),
         Window(p.interpolated.buf, 64 * t1, 256 * t2))
  }

  lemma MovedFits<P(0)>(p: Pads<P>, R: int, C: int, t1: int, t2: int)
    requires ScratchPads(p)
    ensures Moved(p, t1, t2).Data() == p.Data() && Moved(p, t1, t2).Ok(TileBounds(R, C, t1, t2))
  {
  }

  method Tile<P(0, !new)>(e: Kernels<P>, R: int, C: int, gray: Window<P>, grid: Window<P>, p: Pads<P>, filtered: Window<P>,
                          t1: int, t2: int, ghost s: Stages<P>)
    requires Ready(e, s, R, C, gray, grid) && -1 <= t1 && -1 <= t2
    requires ScratchPads(p) && CanStore(filtered, 1, Image(R, C))
    requires gray.buf.data !in p.Data() && grid.buf.data !in p.Data() && filtered.buf.data !in p.Data()
    requires filtered.buf.data != gray.buf.data && filtered.buf.data != grid.buf.data
    modifies p.Data(), filtered.buf.data
    ensures Ready(e, s, R, C, gray, grid)
    ensures Holds(filtered, 1, TilePixels(R, C, t1, t2), s.filtered)
    ensures forall k, i, j {:trigger filtered.At(k, i, j)} ::
              !(k == 0 && TilePixels(R, C, t1, t2).Has(i, j)) ==> filtered.At(k, i, j) == old(filtered.At(k, i, j))
  {
    MovedFits(p, R, C, t1, t2);
    TileCovers(R, C, t1, t2);
    Pipe(e, R, C, gray, grid, Moved(p, t1, t2), filtered, TileBounds(R, C, t1, t2), t2 >= 0, TileCore(R, C, t1, t2), s);
  }

  /** a row of tiles over one set of scratchpads */
  method TileRow<P(0, !new)>(e: Kernels<P>, R: int, C: int, gray: Window<P>, grid: Window<P>, filtered: Window<P>,
                             t1: int, stray: (int, int, int) -> P, ghost s: Stages<P>)
    requires Ready(e, s, R, C, gray, grid) && -1 <= t1 && CanStore(filtered, 1, Image(R, C))
    requires filtered.buf.data != gray.buf.data && filtered.buf.data != grid.buf.data
    modifies filtered.buf.data
    ensures Ready(e, s, R, C, gray, grid)
    ensures Holds(filtered, 1, Box(Max(24, 64 * t1 + 16), Min(R - 33, 64 * t1 + 79), 24, C - 33), s.filtered)
    ensures forall k, i, j {:trigger filtered.At(k, i, j)} ::
              !(64 * t1 + 16 <= i <= 64 * t1 + 79) ==> filtered.At(k, i, j) == old(filtered.At(k, i, j))
  {
    var p := NewScratch(stray);
    var t2 := -1;
    while t2 <= (C - 9) / 256
      invariant -1 <= t2 <= (C - 9) / 256 + 1
      invariant Ready(e, s, R, C, gray, grid)
      invariant Holds(filtered, 1, Box(Max(24, 64 * t1 + 16), Min(R - 33, 64 * t1 + 79), 24, Min(C - 33, 256 * t2 + 23)), s.filtered)
      invariant forall k, i, j {:trigger filtered.At(k, i, j)} ::
                  !(64 * t1 + 16 <= i <= 64 * t1 + 79) ==> filtered.At(k, i, j) == old(filtered.At(k, i, j))
    {
      Tile(e, R, C, gray, grid, p, filtered, t1, t2, s);
      t2 := t2 + 1;
    }
  }

  /** bilateral_polymage.cpp:171-296 */
  method Tiled<P(0, !new)>(e: Kernels<P>, R: int, C: int, gray: Window<P>, stray: (int, int, int) -> P, ghost s: Stages<P>)
    returns (filtered: Window<P>)
    requires R >= 57 && C >= 57 && Lawful(e, s) && Acceptable(e, s, R, C) && Known(gray, 1, Whole(R, C), s.gray)
    ensures Known(filtered, 1, Image(R, C), s.filtered) && CanStore(filtered, 1, Image(R, C))
  {
    Coarse(R);
    Coarse(C);
    var grid := FillGrid(e, gray, GridBox(R, C), stray, Whole(R, C), s.gray, s.grid);
    filtered := NewWindow(1, Image(R, C), stray);
    var t1 := -1;
    while t1 <= (R - 9) / 64
      invariant -1 <= t1 <= (R - 9) / 64 + 1
      invariant Ready(e, s, R, C, gray, grid)
      invariant Holds(filtered, 1, Box(24, Min(R - 33, 64 * t1 + 15), 24, C - 33), s.filtered)
    {
      TileRow(e, R, C, gray, grid, filtered, t1, stray, s);
      t1 := t1 + 1;
    }
  }

  method NaivePads<P(0)>(R: int, C: int, stray: (int, int, int) -> P) returns (p: Pads<P>)
    requires R >= 57 && C >= 57
    ensures p.Ok(NaiveBounds(R, C)) && fresh(p.Data())
  {
    Coarse(R);
    Coarse(C);
    var b := NaiveBounds(R, C);
    var blurz := NewWindow(22, b.blurz, stray);
    var blurx := NewWindow(22, b.blurx, stray);
    var blury := NewWindow(22, b.blury, stray);
    var interpolated := NewWindow(2, b.interpolated, stray);
    p := Pads(blurz, blurx, blury, interpolated);
  }

  /** bilateral_naive.cpp:176-271 */
  method Naive<P(0, !new)>(e: Kernels<P>, R: int, C: int, gray: Window<P>, stray: (int, int, int) -> P, ghost s: Stages<P>)
    returns (filtered: Window<P>)
    requires R >= 57 && C >= 57 && Lawful(e, s) && Acceptable(e, s, R, C) && Known(gray, 1, Whole(R, C), s.gray)
    ensures Known(filtered, 1, Image(R, C), s.filtered) && CanStore(filtered, 1, Image(R, C))
  {
    Coarse(R);
    Coarse(C);
    NaiveCovers(R, C);
    var grid := FillGrid(e, gray, GridBox(R, C), stray, Whole(R, C), s.gray, s.grid);
    filtered := NewWindow(1, Image(R, C), stray);
    var p := NaivePads(R, C, stray);
    Pipe(e, R, C, gray, grid, p, filtered, NaiveBounds(R, C), true, Core(R, C), s);
  }

  /** Bins and levels of all pixels are in range, as they are for grey values in [0, 1). */
  ghost predicate InRange<P(0)>(e: Kernels<P>, R: int, C: int, gray: Window<P>)
    reads gray.buf.data
  {
    && gray.buf.Valid() && e.side <= 9
    && (forall i, j {:trigger gray.At(0, i, j)} :: Whole(R, C).Has(i, j) ==>
          0 <= e.bin(gray.At(0, i, j)) <= 12 && 0 <= e.level(gray.At(0, i, j)) <= 9)
  }

  lemma StagesOf<P(0, !new)>(e: Kernels<P>, R: int, C: int, gray: Window<P>) returns (s: Stages<P>)
    requires InRange(e, R, C, gray)
    ensures Lawful(e, s) && Acceptable(e, s, R, C) && Known(gray, 1, Whole(R, C), s.gray)
  {
    var pixels := Snapshot(gray);
    s := MakeStages(e, pixels);
  }

  /** For every arithmetic, size, grey image with in-range bins, stale scratch and out-of-row value. */
  method TiledEqualsNaive<P(0, !new)>(e: Kernels<P>, R: int, C: int, gray: Window<P>,
                                      stray: (int, int, int) -> P, stray': (int, int, int) -> P)
    returns (tiled: Window<P>, naive: Window<P>)
    requires R >= 57 && C >= 57 && InRange(e, R, C, gray)
    ensures CanStore(tiled, 1, Image(R, C)) && CanStore(naive, 1, Image(R, C))
    ensures forall i, j :: 24 <= i <= R - 33 && 24 <= j <= C - 33 ==> tiled.At(0, i, j) == naive.At(0, i, j)
  {
    ghost var s := StagesOf(e, R, C, gray);
    tiled := Tiled(e, R, C, gray, stray, s);
    naive := Naive(e, R, C, gray, stray', s);
  }
}
