/** The fused camera_pipe_polymage.cpp and the stage-by-stage camera_pipe_polymage_naive.cpp write the same image.
    Both have the bounds of a 1968 x 2592 raw image built in. */
module CameraEqual {
  import opened Buffers
  import opened CameraSpec
  import opened CameraStages
  import opened CameraPipe
  import opened CameraPads

  const R := 1968
  const C := 2592

  // The naive code: each stage once, over the whole image.

  function NaiveBounds(): Bounds {
    var sites := Box(6, 966, 8, 1272);
    var even, odd := Box(6, 966, 16, 2542), Box(6, 966, 17, 2543);
    var w := Weaving(even, odd, even, odd, Box(12, 1930, 16, 2543), Box(13, 1931, 16, 2543));
    Bounds(Box(8, 1937, 12, 2549), Box(4, 968, 6, 1274), Box(4, 968, 6, 1274), Box(5, 967, 7, 1273), sites,
           w, w, w, Box(12, 1931, 16, 2543), Box(12, 1931, 16, 2543))
  }

  function NaiveSizes(): Sizes {
    Sizes(Box(8, 1937, 12, 2549), Box(4, 968, 6, 1274), Box(4, 968, 6, 1274), Box(5, 967, 7, 1273), Box(6, 966, 8, 1272),
          Box(6, 966, 16, 2543), Box(12, 1931, 16, 2543))
  }

  /** the half-resolution cells the image is made of */
  const Core := Box(6, 965, 8, 1271)

  lemma NaiveCovers()
    ensures NaiveBounds().Cover(Core) && NaiveSizes().Hold(NaiveBounds()) && NaiveSizes().Some()
  {
  }

  // The fused code: every nest's bounds in tile (t1, t2), which spans rows 64 t1 .. 64 t1 + 79 and columns
  // 256 t2 .. 256 t2 + 271, clipped to the stage.

  /** half-resolution rows a .. b and columns c .. d of the tile */
  function HalfNest(t1: int, t2: int, a: int, b: int, c: int, d: int, clip: Box): Box {
    Box(Max(clip.r0, 32 * t1 + a), Min(clip.r1, 32 * t1 + b), Max(clip.c0, 128 * t2 + c), Min(clip.c1, 128 * t2 + d))
  }

  /** half-resolution rows, full-resolution columns */
  function WovenNest(t1: int, t2: int, a: int, b: int, c: int, d: int, clip: Box): Box {
    Box(Max(clip.r0, 32 * t1 + a), Min(clip.r1, 32 * t1 + b), Max(clip.c0, 256 * t2 + c), Min(clip.c1, 256 * t2 + d))
  }

  function FullNest(t1: int, t2: int, a: int, b: int, c: int, d: int, clip: Box): Box {
    Box(Max(clip.r0, 64 * t1 + a), Min(clip.r1, 64 * t1 + b), Max(clip.c0, 256 * t2 + c), Min(clip.c1, 256 * t2 + d))
  }

  const EvenCols := Box(6, 966, 16, 2542)
  const OddCols := Box(6, 966, 17, 2543)
  const EvenRows := Box(12, 1930, 16, 2543)
  const OddRows := Box(13, 1931, 16, 2543)
  const Image := Box(12, 1931, 16, 2543)

  function GreenNests(t1: int, t2: int): Weaving {
    Weaving(WovenNest(t1, t2, 2, 38, 4, 268, EvenCols), WovenNest(t1, t2, 2, 37, 5, 267, OddCols),
            WovenNest(t1, t2, 2, 37, 4, 266, EvenCols), WovenNest(t1, t2, 2, 38, 3, 267, OddCols),
            FullNest(t1, t2, 6, 74, 5, 266, EvenRows), FullNest(t1, t2, 5, 73, 5, 266, OddRows))
  }

  function RedNests(t1: int, t2: int): Weaving {
    Weaving(WovenNest(t1, t2, 3, 37, 6, 266, EvenCols), WovenNest(t1, t2, 2, 38, 3, 267, OddCols),
            WovenNest(t1, t2, 3, 37, 6, 266, EvenCols), WovenNest(t1, t2, 3, 37, 5, 265, OddCols),
            FullNest(t1, t2, 6, 72, 6, 265, EvenRows), FullNest(t1, t2, 7, 73, 6, 265, OddRows))
  }

  function BlueNests(t1: int, t2: int): Weaving {
    Weaving(WovenNest(t1, t2, 3, 37, 6, 266, EvenCols), WovenNest(t1, t2, 3, 37, 5, 265, OddCols),
            WovenNest(t1, t2, 2, 38, 4, 268, EvenCols), WovenNest(t1, t2, 3, 37, 5, 265, OddCols),
            FullNest(t1, t2, 6, 72, 6, 265, EvenRows), FullNest(t1, t2, 7, 73, 6, 265, OddRows))
  }

  function TileBounds(t1: int, t2: int): Bounds {
    Bounds(FullNest(t1, t2, 0, 79, 0, 271, Box(8, 1937, 12, 2549)),
           HalfNest(t1, t2, 1, 39, 1, 135, Box(4, 968, 6, 1274)),
           HalfNest(t1, t2, 1, 38, 1, 134, Box(4, 968, 6, 1274)),
           HalfNest(t1, t2, 2, 38, 2, 134, Box(5, 967, 7, 1273)),
           HalfNest(t1, t2, 2, 37, 2, 133, Box(6, 966, 8, 1272)),
           GreenNests(t1, t2), RedNests(t1, t2), BlueNests(t1, t2),
           FullNest(t1, t2, 7, 72, 7, 264, Image), FullNest(t1, t2, 8, 71, 8, 263, Image))
  }

  /** the half-resolution cells the tile's output is made of */
  function TileCore(t1: int, t2: int): Box {
    HalfNest(t1, t2, 4, 35, 4, 131, Core)
  }

  lemma Evens(n: int)
    ensures (2 * n) % 2 == 0 && (2 * n + 1) % 2 == 1
  {
  }

  lemma TileParity(t1: int, t2: int)
    ensures Max(16, 256 * t2 + 4) % 2 == 0 && Max(16, 256 * t2 + 6) % 2 == 0
    ensures Max(17, 256 * t2 + 3) % 2 == 1 && Max(17, 256 * t2 + 5) % 2 == 1
    ensures Max(12, 64 * t1 + 6) % 2 == 0 && Max(13, 64 * t1 + 5) % 2 == 1 && Max(13, 64 * t1 + 7) % 2 == 1
  {
    Evens(128 * t2 + 2);
    Evens(128 * t2 + 3);
    Evens(128 * t2 + 1);
    Evens(32 * t1 + 3);
    Evens(32 * t1 + 2);
  }

  lemma WovenCovers(t1: int, t2: int, a: int, b: int, c: int, d: int, clip: Box, h: Box, dj: int)
    requires h == TileCore(t1, t2) && clip.r0 == 6 && clip.r1 == 966 && clip.c0 == 16 + dj && clip.c1 == 2542 + dj && 0 <= dj <= 1
    requires a <= 4 && 35 <= b && c <= 8 && 263 <= d
    ensures WovenNest(t1, t2, a, b, c, d, clip).Contains(Box(h.r0, h.r1, 2 * h.c0 + dj, 2 * h.c1 + dj))
  {
  }

  lemma RowsCovers(t1: int, t2: int, a: int, b: int, c: int, d: int, clip: Box, h: Box, di: int)
    requires h == TileCore(t1, t2) && clip == Box(12 + di, 1930 + di, 16, 2543) && 0 <= di <= 1
    requires a <= 8 && 71 <= b && c <= 8 && 263 <= d
    ensures FullNest(t1, t2, a, b, c, d, clip).Contains(Box(2 * h.r0 + di, 2 * h.r1 + di, 2 * h.c0, 2 * h.c1 + 1))
  {
  }

  lemma GreenWeaves(t1: int, t2: int)
    ensures GreenNests(t1, t2).Covers(TileCore(t1, t2))
  {
    var h := TileCore(t1, t2);
    TileParity(t1, t2);
    WovenCovers(t1, t2, 2, 38, 4, 268, EvenCols, h, 0);
    WovenCovers(t1, t2, 2, 37, 5, 267, OddCols, h, 1);
    WovenCovers(t1, t2, 2, 37, 4, 266, EvenCols, h, 0);
    WovenCovers(t1, t2, 2, 38, 3, 267, OddCols, h, 1);
    RowsCovers(t1, t2, 6, 74, 5, 266, EvenRows, h, 0);
    RowsCovers(t1, t2, 5, 73, 5, 266, OddRows, h, 1);
  }

  lemma RedWeaves(t1: int, t2: int)
    ensures RedNests(t1, t2).Covers(TileCore(t1, t2))
  {
    var h := TileCore(t1, t2);
    TileParity(t1, t2);
    WovenCovers(t1, t2, 3, 37, 6, 266, EvenCols, h, 0);
    WovenCovers(t1, t2, 2, 38, 3, 267, OddCols, h, 1);
    WovenCovers(t1, t2, 3, 37, 5, 265, OddCols, h, 1);
    RowsCovers(t1, t2, 6, 72, 6, 265, EvenRows, h, 0);
    RowsCovers(t1, t2, 7, 73, 6, 265, OddRows, h, 1);
  }

  lemma BlueWeaves(t1: int, t2: int)
    ensures BlueNests(t1, t2).Covers(TileCore(t1, t2))
  {
    var h := TileCore(t1, t2);
    TileParity(t1, t2);
    WovenCovers(t1, t2, 3, 37, 6, 266, EvenCols, h, 0);
    WovenCovers(t1, t2, 3, 37, 5, 265, OddCols, h, 1);
    WovenCovers(t1, t2, 2, 38, 4, 268, EvenCols, h, 0);
    RowsCovers(t1, t2, 6, 72, 6, 265, EvenRows, h, 0);
    RowsCovers(t1, t2, 7, 73, 6, 265, OddRows, h, 1);
  }

  /** Whatever the over-wide nests leave in their outer cells, the cells the tile's output depends on are stored. */
  lemma TileCovers(t1: int, t2: int)
    requires -1 <= t1 <= 30 && -1 <= t2 <= 9
    ensures TileBounds(t1, t2).Cover(TileCore(t1, t2))
  {
    GreenWeaves(t1, t2);
    RedWeaves(t1, t2);
    BlueWeaves(t1, t2);
    SensorsCover(t1, t2);
  }

  lemma SensorsCover(t1: int, t2: int)
    requires -1 <= t1 <= 30 && -1 <= t2 <= 9
    ensures var b, h := TileBounds(t1, t2), TileCore(t1, t2);
            && b.denoised.Contains(Full(Around(h, 2))) && b.deint.Contains(Around(h, 2)) && b.sensors.Contains(Around(h, 2))
            && b.guesses.Contains(Around(h, 1)) && b.chroma.Contains(h)
  {
  }

  /** the scratchpads' cells in tile (t1, t2) */
  function TileSizes(t1: int, t2: int): Sizes {
    var half := Box(32 * t1, 32 * t1 + 39, 128 * t2, 128 * t2 + 135);
    var full := Box(64 * t1, 64 * t1 + 79, 256 * t2, 256 * t2 + 271);
    Sizes(full, half, half, half, half, Box(32 * t1, 32 * t1 + 39, 256 * t2, 256 * t2 + 271), full)
  }

  lemma TileHolds(t1: int, t2: int)
    ensures TileSizes(t1, t2).Hold(TileBounds(t1, t2)) && TileSizes(t1, t2).Some()
  {
  }

  // The scratchpads keep their contents and move with the tile.

  function MovedTo<P(0)>(w: Window<P>, b: Box): Window<P> { Window(w.buf, b.r0, b.c0) }

  function MovedChannel<P(0)>(p: ChannelPads<P>, parts: Box, z: Sizes): ChannelPads<P> {
    ChannelPads(MovedTo(p.p, parts), MovedTo(p.q, parts), MovedTo(p.r, parts),
                MovedTo(p.x1, z.woven), MovedTo(p.x2, z.woven), MovedTo(p.all, z.full))
  }

  function Moved<P(0)>(p: Pads<P>, z: Sizes): Pads<P> {
    var s := p.sensors;
    Pads(SensorPads(MovedTo(s.denoised, z.denoised), MovedTo(s.deint, z.deint), MovedTo(s.r_r, z.sensors),
                    MovedTo(s.g_gr, z.sensors), MovedTo(s.b_b, z.sensors), MovedTo(s.g_gb, z.sensors)),
         MovedChannel(p.green, z.guesses, z), MovedChannel(p.red, z.chroma, z), MovedChannel(p.blue, z.chroma, z),
         MovedTo(p.corrected, z.full))
  }

  lemma MovedFits<P(0)>(p: Pads<P>, t1: int, t2: int)
    requires PadsSized(p, TileSizes(0, 0)) && PadsApart(p)
    ensures Moved(p, TileSizes(t1, t2)).Data() == p.Data()
    ensures Moved(p, TileSizes(t1, t2)).Ok(TileBounds(t1, t2))
  {
    TileHolds(t1, t2);
    PadsFit(Moved(p, TileSizes(t1, t2)), TileSizes(t1, t2), TileBounds(t1, t2));
  }

  ghost predicate Raw<P(0)>(raw: Window<P>, f: Stage<P>)
    reads raw.buf.data
  {
    Plane(raw, 0, Box(0, R - 1, 0, C - 1), f)
  }

  /** one tile: camera_pipe_polymage.cpp:124-729 */
  method FusedTile<P(0, !new)>(e: Kernels<P>, raw: Window<P>, pads: Pads<P>, process: Window<P>, t1: int, t2: int, ghost s: Stages<P>)
    requires -1 <= t1 <= 30 && -1 <= t2 <= 9
    requires Lawful(e, s) && Raw(raw, s.sensors.raw) && PadsSized(pads, TileSizes(0, 0)) && PadsApart(pads)
    requires CanStore(process, 3, Image)
    requires raw.buf.data !in pads.Data() && process.buf.data !in pads.Data() && process.buf.data != raw.buf.data
    modifies pads.Data(), process.buf.data
    ensures Raw(raw, s.sensors.raw)
    ensures Holds(process, 3, FullNest(t1, t2, 8, 71, 8, 263, Image), s.process)
    ensures forall k, i, j {:trigger process.At(k, i, j)} ::
              !FullNest(t1, t2, 8, 71, 8, 263, Image).Has(i, j) ==> process.At(k, i, j) == old(process.At(k, i, j))
  {
    MovedFits(pads, t1, t2);
    TileCovers(t1, t2);
    Pipe(e, raw, Moved(pads, TileSizes(t1, t2)), process, TileBounds(t1, t2), TileCore(t1, t2), Box(0, R - 1, 0, C - 1), s);
  }

  /** a row of tiles over one set of scratchpads: camera_pipe_polymage.cpp:122-730 */
  method FusedRow<P(0, !new)>(e: Kernels<P>, raw: Window<P>, pads: Pads<P>, process: Window<P>, t1: int, ghost s: Stages<P>)
    requires -1 <= t1 <= 30 && Lawful(e, s) && Raw(raw, s.sensors.raw) && PadsSized(pads, TileSizes(0, 0)) && PadsApart(pads)
    requires CanStore(process, 3, Image)
    requires raw.buf.data !in pads.Data() && process.buf.data !in pads.Data() && process.buf.data != raw.buf.data
    modifies pads.Data(), process.buf.data
    ensures Raw(raw, s.sensors.raw)
    ensures Holds(process, 3, Box(Max(12, 64 * t1 + 8), Min(1931, 64 * t1 + 71), 16, 2543), s.process)
    ensures forall k, i, j {:trigger process.At(k, i, j)} ::
              !(64 * t1 + 8 <= i <= 64 * t1 + 71) ==> process.At(k, i, j) == old(process.At(k, i, j))
  {
    var t2 := -1;
    while t2 <= 9
      invariant -1 <= t2 <= 10
      invariant Raw(raw, s.sensors.raw)
      invariant Holds(process, 3, Box(Max(12, 64 * t1 + 8), Min(1931, 64 * t1 + 71), 16, Min(2543, 256 * t2 + 7)), s.process)
      invariant forall k, i, j {:trigger process.At(k, i, j)} ::
                  !(64 * t1 + 8 <= i <= 64 * t1 + 71) ==> process.At(k, i, j) == old(process.At(k, i, j))
    {
      FusedTile(e, raw, pads, process, t1, t2, s);
      t2 := t2 + 1;
    }
  }

  /** camera_pipe_polymage.cpp:97-730 */
  method ScratchRow<P(0, !new)>(e: Kernels<P>, raw: Window<P>, process: Window<P>, t1: int, stray: (int, int, int) -> P, ghost s: Stages<P>)
    requires -1 <= t1 <= 30 && Lawful(e, s) && Raw(raw, s.sensors.raw)
    requires CanStore(process, 3, Image) && process.buf.data != raw.buf.data
    modifies process.buf.data
    ensures Raw(raw, s.sensors.raw)
    ensures Holds(process, 3, Box(Max(12, 64 * t1 + 8), Min(1931, 64 * t1 + 71), 16, 2543), s.process)
    ensures forall k, i, j {:trigger process.At(k, i, j)} ::
              !(64 * t1 + 8 <= i <= 64 * t1 + 71) ==> process.At(k, i, j) == old(process.At(k, i, j))
  {
    TileHolds(0, 0);
    var pads := NewPads(TileSizes(0, 0), stray);
    FusedRow(e, raw, pads, process, t1, s);
  }

  /** camera_pipe_polymage.cpp:95-731 */
  method Fused<P(0, !new)>(e: Kernels<P>, raw: Window<P>, stray: (int, int, int) -> P, ghost s: Stages<P>)
    returns (process: Window<P>)
    requires Lawful(e, s) && Raw(raw, s.sensors.raw)
    ensures Known(process, 3, Image, s.process) && CanStore(process, 3, Image) && fresh(process.buf.data) && Raw(raw, s.sensors.raw)
  {
    process := NewWindow(3, Image, stray);
    SizedStores(process, 3, Image, Image);
    var t1 := -1;
    while t1 <= 30
      invariant -1 <= t1 <= 31
      invariant Raw(raw, s.sensors.raw)
      invariant Holds(process, 3, Box(12, Min(1931, 64 * t1 + 7), 16, 2543), s.process)
    {
      ScratchRow(e, raw, process, t1, stray, s);
      t1 := t1 + 1;
    }
  }

  /** camera_pipe_polymage_naive.cpp:112-701 */
  method Naive<P(0, !new)>(e: Kernels<P>, raw: Window<P>, stray: (int, int, int) -> P, ghost s: Stages<P>)
    returns (process: Window<P>)
    requires Lawful(e, s) && Raw(raw, s.sensors.raw)
    ensures Known(process, 3, Image, s.process) && CanStore(process, 3, Image)
  {
    NaiveCovers();
    process := NewWindow(3, Image, stray);
    SizedStores(process, 3, Image, Image);
    var pads := NewPads(NaiveSizes(), stray);
    PadsFit(pads, NaiveSizes(), NaiveBounds());
    Pipe(e, raw, pads, process, NaiveBounds(), Core, Box(0, R - 1, 0, C - 1), s);
  }

  /** Whatever the raw image, the scratchpads' old contents and the values outside their rows. */
  method FusedEqualsNaive<P(0, !new)>(e: Kernels<P>, raw: Window<P>, stray: (int, int, int) -> P, stray': (int, int, int) -> P)
    returns (fused: Window<P>, naive: Window<P>)
    requires raw.buf.Valid()
    ensures CanStore(fused, 3, Image) && CanStore(naive, 3, Image)
    ensures forall k, i, j :: 0 <= k <= 2 && 12 <= i <= 1931 && 16 <= j <= 2543 ==> fused.At(k, i, j) == naive.At(k, i, j)
  {
    ghost var pixels := Snapshot(raw);
    ghost var s := MakeStages(e, pixels);
    fused := Fused(e, raw, stray, s);
    naive := Naive(e, raw, stray', s);
  }
}
