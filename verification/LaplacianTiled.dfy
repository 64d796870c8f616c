/** The overlapped-tiled pipeline of laplacian_polymage.cpp. Scratchpads are allocated once per row of tiles and
    keep the previous tile's cells. */
module LaplacianTiled {
  import opened Buffers
  import opened Nests
  import opened LaplacianSpec
  import opened LaplacianStages
  import opened LaplacianPyramid

  /** A downsampling tile: 8 rows by 128 columns of the coarser level, through 8 x 259 scratch. */
  method DownTile<P(0, !new)>(e: Kernels<P>, src: Window<P>, dst: Window<P>, dxBuf: Buffer<P>, n: nat, t1: int, t2: int,
                              rowHi: int, fineHi: int, colHi: int,
                              ghost have: Box, ghost f: Stage<P>, ghost fx: Stage<P>, ghost g: Stage<P>)
    requires 0 <= t1 && -1 <= t2 && 2 * colHi + 2 <= fineHi
    requires Known(src, n, have, f) && have.Contains(Box(1, 2 * rowHi + 2, 1, fineHi))
    requires CanStore(dst, n, Box(1, rowHi, 1, colHi))
    requires dxBuf.Valid() && dxBuf.planes == n && dxBuf.rows == 8 && dxBuf.cols == 259
    requires dxBuf.data != src.buf.data && dst.buf.data != src.buf.data && dxBuf.data != dst.buf.data
    requires DownRowLaw(e, f, fx) && DownColLaw(e, fx, g)
    modifies dxBuf.data, dst.buf.data
    ensures Holds(dst, n, Box(Max(1, 8 * t1), Min(8 * t1 + 7, rowHi), Max(1, 128 * t2 + 1), Min(colHi, 128 * t2 + 128)), g)
    ensures forall k, i, j {:trigger dst.At(k, i, j)} ::
              !(Max(1, 8 * t1) <= i && 128 * t2 + 1 <= j && 1 <= j) ==> dst.At(k, i, j) == old(dst.At(k, i, j))
  {
    var dx := Window(dxBuf, 8 * t1, 256 * t2);
    var half := Box(Max(1, 8 * t1), Min(8 * t1 + 7, rowHi), Max(1, 256 * t2), Min(fineHi, 256 * t2 + 258));
    DownRows(e, src, dx, n, half, have, f, fx);
    if t2 >= 0 {
      DownCols(e, dx, dst, n, Box(half.r0, half.r1, 128 * t2 + 1, Min(colHi, 128 * t2 + 128)), half, fx, g);
    }
  }

  /** laplacian_polymage.cpp:178-211 and its copies at 233, 267, 307, 356 */
  method DownTiled<P(0, !new)>(e: Kernels<P>, src: Window<P>, n: nat, rt: int, ct: int, rowHi: int, fineHi: int, colHi: int,
                               stray: (int, int, int) -> P,
                               ghost have: Box, ghost f: Stage<P>, ghost fx: Stage<P>, ghost g: Stage<P>)
    returns (dst: Window<P>)
    requires 0 <= rowHi <= 8 * rt + 7 && 0 <= colHi <= 128 * ct + 128 && 2 * colHi + 2 <= fineHi && -1 <= ct
    requires Known(src, n, have, f) && have.Contains(Box(1, 2 * rowHi + 2, 1, fineHi))
    requires DownRowLaw(e, f, fx) && DownColLaw(e, fx, g)
    ensures Known(dst, n, Box(1, rowHi, 1, colHi), g) && fresh(dst.buf.data)
  {
    var buf := new Buffer(n, rowHi, colHi, stray);
    dst := Window(buf, 1, 1);
    var t1 := 0;
    while t1 <= rt
      invariant 0 <= t1
      invariant Holds(dst, n, Box(1, Min(8 * t1 - 1, rowHi), 1, colHi), g)
    {
      var dx := new Buffer(n, 8, 259, stray);
      var t2 := -1;
      while t2 <= ct
        invariant -1 <= t2 <= ct + 1
        invariant Holds(dst, n, Box(1, Min(8 * t1 - 1, rowHi), 1, colHi), g)
        invariant Holds(dst, n, Box(Max(1, 8 * t1), Min(8 * t1 + 7, rowHi), 1, Min(colHi, 128 * t2)), g)
      {
        DownTile(e, src, dst, dx, n, t1, t2, rowHi, fineHi, colHi, have, f, fx, g);
        t2 := t2 + 1;
      }
      t1 := t1 + 1;
    }
  }

  // The tiles of output levels 2, 1 and 0: 8 rows by 256 columns, `b` being where the level is defined and `a`
  // where the level above is.

  predicate Nested(b: Box, a: Box) {
    && a.r0 <= CoarseLo(b.r0) && CoarseHi(b.r1) <= a.r1
    && a.c0 <= CoarseLo(b.c0) && CoarseHi(b.c1) <= a.c1
  }

  /** the rows of tile t1, the columns lo .. hi of tile t2 */
  function Tile(b: Box, t1: int, t2: int, lo: int, hi: int): Box {
    Box(Max(b.r0, 8 * t1), Min(8 * t1 + 7, b.r1), Max(b.c0, 256 * t2 + lo), Min(256 * t2 + hi, b.c1))
  }

  /** the same rows, and the columns of the level above that the tile reads */
  function HalfTile(b: Box, a: Box, t1: int, t2: int): Box {
    Box(Max(b.r0, 8 * t1), Min(8 * t1 + 7, b.r1), Max(a.c0, 128 * t2), Min(128 * t2 + 130, a.c1))
  }

  lemma TileReads(b: Box, a: Box, t1: int, t2: int)
    requires Nested(b, a)
    ensures a.r0 <= CoarseLo(Max(b.r0, 8 * t1)) && CoarseHi(Min(8 * t1 + 7, b.r1)) <= a.r1
    ensures Max(a.c0, 128 * t2) <= CoarseLo(Max(b.c0, 256 * t2 + 1))
    ensures CoarseHi(Min(256 * t2 + 260, b.c1)) <= Min(128 * t2 + 130, a.c1)
    ensures Max(a.c0, 128 * t2) <= CoarseLo(Max(b.c0, 256 * t2 + 3))
    ensures CoarseHi(Min(256 * t2 + 258, b.c1)) <= Min(128 * t2 + 130, a.c1)
  {
  }

  /** The level's rows start with the last, odd row of tile t0 - 1, so even rows start in tile t0. */
  function TileNests(b: Box, t0: int, t1: int): RowNests {
    RowNests(t1 >= t0, By2(8 * t1, Min(8 * t1 + 6, b.r1)), true, By2(Max(b.r0, 8 * t1 + 1), Min(8 * t1 + 7, b.r1)))
  }

  lemma Odd(m: int)
    ensures (2 * m) % 2 == 0 && (2 * m + 1) % 2 == 1
  {
  }

  lemma TileNestsCover(b: Box, t0: int, t1: int)
    requires b.r0 == 8 * t0 - 1 && t0 - 1 <= t1
    ensures TileNests(b, t0, t1).Ok()
    ensures forall i :: TileNests(b, t0, t1).Visits(i) <==> Max(b.r0, 8 * t1) <= i <= Min(8 * t1 + 7, b.r1)
  {
    Odd(4 * t1);
    Odd(4 * t0 - 1);
    var n := TileNests(b, t0, t1);
    forall i ensures n.Visits(i) <==> Max(b.r0, 8 * t1) <= i <= Min(8 * t1 + 7, b.r1) {
      if i % 2 == 0 {
        assert !n.odd.Visits(i);
      } else {
        assert !n.even.Visits(i);
      }
    }
  }

  /** the level above, upsampled along rows into 8 x 131 scratch */
  method UpTile<P(0, !new)>(e: Kernels<P>, src: Window<P>, uxBuf: Buffer<P>, n: nat, b: Box, a: Box, t0: int, t1: int, t2: int,
                            ghost have: Box, ghost f: Stage<P>, ghost g: Stage<P>)
    requires Nested(b, a) && b.r0 == 8 * t0 - 1 && t0 - 1 <= t1
    requires Known(src, n, have, f) && have.Contains(a)
    requires uxBuf.Valid() && Shape(uxBuf, n, 8, 131) && uxBuf.data != src.buf.data
    requires UpRowLaw(e, f, g)
    modifies uxBuf.data
    ensures Holds(Window(uxBuf, 8 * t1, 128 * t2), n, HalfTile(b, a, t1, t2), g)
  {
    TileNestsCover(b, t0, t1);
    TileReads(b, a, t1, t2);
    var half := HalfTile(b, a, t1, t2);
    UpRows(e, src, Window(uxBuf, 8 * t1, 128 * t2), n, TileNests(b, t0, t1), half.c0, half.c1, half, have, f, g);
  }

  /** the Laplacian planes of the tile and the output Laplacian picked from them */
  method DetailTile<P(0, !new)>(e: Kernels<P>, input: Window<P>, fine: Window<P>, ux: Window<P>, u: Window<P>, outL: Window<P>,
                                b: Box, t1: int, t2: int, ghost a: Box, ghost have: Box,
                                ghost i: Stage<P>, ghost f: Stage<P>, ghost up: Stage<P>, ghost lap: Stage<P>, ghost l: Stage<P>)
    requires Nested(b, a) && have.Contains(b)
    requires Known(input, 1, have, i) && Known(fine, 4, have, f) && Known(ux, 4, HalfTile(b, a, t1, t2), up)
    requires u.buf.Valid() && Shape(u.buf, 4, 8, 262) && u.r0 == 8 * t1 && u.c0 == 256 * t2
    requires outL.buf.Valid() && Shape(outL.buf, 1, 8, 262) && outL.r0 == 8 * t1 && outL.c0 == 256 * t2
    requires u.buf.data !in {fine.buf.data, ux.buf.data, input.buf.data}
    requires outL.buf.data !in {input.buf.data, u.buf.data}
    requires DetailLaw(e, f, up, lap) && PickLaw(e, i, lap, l) && forall v :: 0 <= e.level(v) <= 2
    modifies u.buf.data, outL.buf.data
    ensures Holds(outL, 1, Tile(b, t1, t2, 2, 259), l)
  {
    TileReads(b, a, t1, t2);
    Details(e, fine, ux, u, 4, Tile(b, t1, t2, 1, 260), have, HalfTile(b, a, t1, t2), f, up, lap);
    PickPlanes(e, input, u, outL, Tile(b, t1, t2, 2, 259), have, Tile(b, t1, t2, 1, 260), i, lap, l);
  }

  method AddTile<P(0, !new)>(e: Kernels<P>, outL: Window<P>, ux: Window<P>, dst: Window<P>, b: Box, t1: int, t2: int,
                             ghost a: Box, ghost haveUx: Box, ghost l: Stage<P>, ghost up: Stage<P>, ghost g: Stage<P>)
    requires Nested(b, a) && CanStore(dst, 1, b)
    requires Known(outL, 1, Tile(b, t1, t2, 2, 259), l)
    requires Known(ux, 1, haveUx, up) && haveUx.Contains(HalfTile(b, a, t1, t2))
    requires dst.buf.data != outL.buf.data && dst.buf.data != ux.buf.data
    requires CollapseLaw(e, l, up, g)
    modifies dst.buf.data
    ensures Holds(dst, 1, Tile(b, t1, t2, 3, 258), g)
    ensures forall k, i, j {:trigger dst.At(k, i, j)} ::
              !(k == 0 && Tile(b, t1, t2, 3, 258).Has(i, j)) ==> dst.At(k, i, j) == old(dst.At(k, i, j))
  {
    TileReads(b, a, t1, t2);
    Collapse(e, outL, ux, dst, Tile(b, t1, t2, 3, 258), Tile(b, t1, t2, 2, 259), haveUx, l, up, g);
  }

  /** What an output level is computed from. `above` is the output level above; for level 2 it is that level
      upsampled along rows already. */
  datatype Sources<!P(0)> = Sources(input: Window<P>, fine: Window<P>, coarse: Window<P>, above: Window<P>)

  ghost predicate Ready<P(0, !new)>(e: Kernels<P>, s: Stages<P>, l: nat, from: Sources<P>, upsampled: bool,
                                    have: Box, haveCoarse: Box, b: Box, a: Box)
    reads from.input.buf.data, from.fine.buf.data, from.coarse.buf.data, from.above.buf.data
  {
    && s.Shaped() && l <= 3 && LawfulOut(e, s, l) && (forall v :: 0 <= e.level(v) <= 2)
    && Nested(b, a) && have.Contains(b) && haveCoarse.Contains(a)
    && Known(from.input, 1, have, s.inG[l]) && Known(from.fine, 4, have, s.g[l])
    && Known(from.coarse, 4, haveCoarse, s.g[l + 1])
    && Known(from.above, 1, if upsampled then Box(b.r0, b.r1, a.c0, a.c1) else a, if upsampled then s.outUp[l] else s.outG[l + 1])
  }

  ghost predicate Apart<P(0)>(data: array<P>, from: Sources<P>) {
    data !in {from.input.buf.data, from.fine.buf.data, from.coarse.buf.data, from.above.buf.data}
  }

  /** the scratchpads of one row of tiles; level 2 has no use for uxOut */
  datatype Scratch<!P(0)> = Scratch(ux: Buffer<P>, uxOut: Buffer<P>, u: Buffer<P>, outL: Buffer<P>) {
    ghost predicate Ok(from: Sources<P>, dst: Window<P>) {
      && ux.Valid() && Shape(ux, 4, 8, 131) && uxOut.Valid() && Shape(uxOut, 1, 8, 131)
      && u.Valid() && Shape(u, 4, 8, 262) && outL.Valid() && Shape(outL, 1, 8, 262)
      && Apart(ux.data, from) && Apart(uxOut.data, from) && Apart(u.data, from) && Apart(outL.data, from)
      && dst.buf.data !in {ux.data, uxOut.data, u.data, outL.data}
      && ux.data != uxOut.data && ux.data != u.data && ux.data != outL.data
      && uxOut.data != u.data && uxOut.data != outL.data && u.data != outL.data
    }
  }

  /** one tile: laplacian_polymage.cpp:641-753, 765-903, 915-1053 */
  method OutTile<P(0, !new)>(e: Kernels<P>, from: Sources<P>, upsampled: bool, dst: Window<P>, pads: Scratch<P>,
                             b: Box, a: Box, t0: int, t1: int, t2: int,
                             ghost have: Box, ghost haveCoarse: Box, ghost s: Stages<P>, ghost l: nat)
    requires b.r0 == 8 * t0 - 1 && t0 - 1 <= t1
    requires Ready(e, s, l, from, upsampled, have, haveCoarse, b, a)
    requires pads.Ok(from, dst) && Apart(dst.buf.data, from) && CanStore(dst, 1, b)
    modifies pads.ux.data, pads.uxOut.data, pads.u.data, pads.outL.data, dst.buf.data
    ensures Ready(e, s, l, from, upsampled, have, haveCoarse, b, a)
    ensures Holds(dst, 1, Tile(b, t1, t2, 3, 258), s.outG[l])
    ensures forall k, i, j {:trigger dst.At(k, i, j)} ::
              !(k == 0 && Tile(b, t1, t2, 3, 258).Has(i, j)) ==> dst.At(k, i, j) == old(dst.At(k, i, j))
  {
    var half := HalfTile(b, a, t1, t2);
    var ux, u, outL := Window(pads.ux, 8 * t1, 128 * t2), Window(pads.u, 8 * t1, 256 * t2), Window(pads.outL, 8 * t1, 256 * t2);
    UpTile(e, from.coarse, pads.ux, 4, b, a, t0, t1, t2, haveCoarse, s.g[l + 1], s.up[l]);
    var uxOut := from.above;
    if !upsampled {
      uxOut := Window(pads.uxOut, 8 * t1, 128 * t2);
      UpTile(e, from.above, pads.uxOut, 1, b, a, t0, t1, t2, a, s.outG[l + 1], s.outUp[l]);
    }
    DetailTile(e, from.input, from.fine, ux, u, outL, b, t1, t2, a, have, s.inG[l], s.g[l], s.up[l], s.lap[l], s.outL[l]);
    AddTile(e, outL, uxOut, dst, b, t1, t2, a, if upsampled then Box(b.r0, b.r1, a.c0, a.c1) else half,
            s.outL[l], s.outUp[l], s.outG[l]);
  }

  method NewScratch<P(0)>(from: Sources<P>, dst: Window<P>, stray: (int, int, int) -> P) returns (pads: Scratch<P>)
    ensures pads.Ok(from, dst)
    ensures fresh(pads.ux.data) && fresh(pads.uxOut.data) && fresh(pads.u.data) && fresh(pads.outL.data)
  {
    var ux := new Buffer(4, 8, 131, stray);
    var uxOut := new Buffer(1, 8, 131, stray);
    var u := new Buffer(4, 8, 262, stray);
    var outL := new Buffer(1, 8, 262, stray);
    pads := Scratch(ux, uxOut, u, outL);
  }

  method OutTileRow<P(0, !new)>(e: Kernels<P>, from: Sources<P>, upsampled: bool, dst: Window<P>,
                                b: Box, a: Box, t0: int, t1: int, ct: int, stray: (int, int, int) -> P,
                                ghost have: Box, ghost haveCoarse: Box, ghost s: Stages<P>, ghost l: nat)
    requires b.r0 == 8 * t0 - 1 && t0 - 1 <= t1 && 3 <= b.c0 && b.c1 <= 256 * ct + 258 && -1 <= ct
    requires Ready(e, s, l, from, upsampled, have, haveCoarse, b, a)
    requires Apart(dst.buf.data, from) && CanStore(dst, 1, b)
    modifies dst.buf.data
    ensures Ready(e, s, l, from, upsampled, have, haveCoarse, b, a)
    ensures Holds(dst, 1, Box(Max(b.r0, 8 * t1), Min(8 * t1 + 7, b.r1), b.c0, b.c1), s.outG[l])
    ensures forall k, i, j {:trigger dst.At(k, i, j)} ::
              !(8 * t1 <= i <= 8 * t1 + 7) ==> dst.At(k, i, j) == old(dst.At(k, i, j))
  {
    var pads := NewScratch(from, dst, stray);
    var t2 := 0;
    while t2 <= ct
      invariant 0 <= t2 <= ct + 1
      invariant Ready(e, s, l, from, upsampled, have, haveCoarse, b, a)
      invariant Holds(dst, 1, Box(Max(b.r0, 8 * t1), Min(8 * t1 + 7, b.r1), b.c0, Min(256 * t2 + 2, b.c1)), s.outG[l])
      invariant forall k, i, j {:trigger dst.At(k, i, j)} ::
                  !(8 * t1 <= i <= 8 * t1 + 7) ==> dst.At(k, i, j) == old(dst.At(k, i, j))
    {
      OutTile(e, from, upsampled, dst, pads, b, a, t0, t1, t2, have, haveCoarse, s, l);
      t2 := t2 + 1;
    }
  }

  /** laplacian_polymage.cpp:633-755, 756-905, 906-1055 */
  method OutTiled<P(0, !new)>(e: Kernels<P>, from: Sources<P>, upsampled: bool,
                              b: Box, a: Box, t0: int, rt: int, ct: int, stray: (int, int, int) -> P,
                              ghost have: Box, ghost haveCoarse: Box, ghost s: Stages<P>, ghost l: nat)
    returns (dst: Window<P>)
    requires b.r0 == 8 * t0 - 1 && b.r1 <= 8 * rt + 7 && 3 <= b.c0 && b.c1 <= 256 * ct + 258 && -1 <= ct && t0 - 1 <= rt
    requires b.r0 <= b.r1 + 1 && b.c0 <= b.c1 + 1
    requires Ready(e, s, l, from, upsampled, have, haveCoarse, b, a)
    ensures Known(dst, 1, b, s.outG[l]) && CanStore(dst, 1, b) && fresh(dst.buf.data)
  {
    var buf := new Buffer(1, b.r1 - b.r0 + 1, b.c1 - b.c0 + 1, stray);
    dst := Window(buf, b.r0, b.c0);
    var t1 := t0 - 1;
    while t1 <= rt
      invariant t0 - 1 <= t1 <= rt + 1
      invariant Ready(e, s, l, from, upsampled, have, haveCoarse, b, a)
      invariant Holds(dst, 1, Box(b.r0, Min(8 * t1 - 1, b.r1), b.c0, b.c1), s.outG[l])
    {
      OutTileRow(e, from, upsampled, dst, b, a, t0, t1, ct, stray, have, haveCoarse, s, l);
      t1 := t1 + 1;
    }
  }

  // Level 3's tiles are shifted against the 8-row grid: they end in level 2's upsampled rows 8 t1 + 6 .. 8 t1 + 13,
  // and each earlier stage keeps one more row on either side.

  /** level 3's rows 4 t1 + lo .. 4 t1 + hi, columns of tile t2 */
  function ShiftedTile(b: Box, t1: int, t2: int, lo: int, hi: int): Box {
    Box(Max(b.r0, 4 * t1 + lo), Min(4 * t1 + hi, b.r1), Max(b.c0, 256 * t2), Min(256 * t2 + 255, b.c1))
  }

  /** `up` is where level 3, upsampled along rows, is defined. */
  function RowsTile(b: Box, up: Box, t1: int, t2: int): Box {
    Box(Max(up.r0, 8 * t1 + 6), Min(8 * t1 + 13, up.r1), Max(b.c0, 256 * t2), Min(256 * t2 + 255, b.c1))
  }

  /** The first tile, t1 == -1, has no odd rows. */
  function ShiftedNests(up: Box, t1: int): RowNests {
    RowNests(true, By2(Max(8, 8 * t1 + 6), Min(8 * t1 + 12, up.r1)), t1 >= 0, By2(8 * t1 + 7, Min(8 * t1 + 13, up.r1)))
  }

  lemma ShiftedNestsCover(up: Box, t1: int)
    requires up.r0 == 7 && -1 <= t1
    ensures ShiftedNests(up, t1).Ok()
    ensures forall i :: ShiftedNests(up, t1).Visits(i) <==> Max(up.r0, 8 * t1 + 6) <= i <= Min(8 * t1 + 13, up.r1)
  {
    Odd(4 * t1 + 3);
    var n := ShiftedNests(up, t1);
    forall i ensures n.Visits(i) <==> Max(up.r0, 8 * t1 + 6) <= i <= Min(8 * t1 + 13, up.r1) {
      if i % 2 == 0 {
        assert !n.odd.Visits(i);
      } else {
        assert !n.even.Visits(i);
      }
    }
  }

  lemma ShiftedReads(b: Box, up: Box, t1: int)
    requires up.r0 == 7 && b.r0 == 3 && CoarseHi(up.r1) <= b.r1
    ensures Max(b.r0, 4 * t1 + 2) <= CoarseLo(Max(up.r0, 8 * t1 + 6))
    ensures CoarseHi(Min(8 * t1 + 13, up.r1)) <= Min(4 * t1 + 7, b.r1)
  {
  }

  /** The columns of a level-3 tile lie in the level, and what they read in the level above. */
  lemma ShiftedColumns(b: Box, a: Box, t2: int)
    requires a.c0 <= CoarseLo(b.c0) && CoarseHi(b.c1) <= a.c1
    ensures a.c0 <= CoarseLo(Max(b.c0, 256 * t2)) && CoarseHi(Min(256 * t2 + 255, b.c1)) <= a.c1
  {
  }

  datatype ShiftedScratch<!P(0)> = ShiftedScratch(u: Buffer<P>, outL: Buffer<P>, outG: Buffer<P>) {
    ghost predicate Ok(from: ShiftedSources<P>, dst: Window<P>) {
      && u.Valid() && Shape(u, 4, 10, 256) && outL.Valid() && Shape(outL, 1, 10, 256) && outG.Valid() && Shape(outG, 1, 10, 256)
      && from.Apart(u.data) && from.Apart(outL.data) && from.Apart(outG.data)
      && u.data != outL.data && u.data != outG.data && outL.data != outG.data
      && dst.buf.data !in {u.data, outL.data, outG.data}
    }
  }

  /** level 3's inputs; ux and uxOut are level 4, upsampled along rows */
  datatype ShiftedSources<!P(0)> = ShiftedSources(input: Window<P>, fine: Window<P>, ux: Window<P>, uxOut: Window<P>) {
    ghost predicate Apart(data: array<P>) {
      data !in {input.buf.data, fine.buf.data, ux.buf.data, uxOut.buf.data}
    }
  }

  ghost predicate ShiftedReady<P(0, !new)>(e: Kernels<P>, s: Stages<P>, from: ShiftedSources<P>, have: Box, b: Box, a: Box, up: Box)
    reads from.input.buf.data, from.fine.buf.data, from.ux.buf.data, from.uxOut.buf.data
  {
    && s.Shaped() && LawfulOut(e, s, 3) && LawfulOut(e, s, 2) && (forall v :: 0 <= e.level(v) <= 2)
    && have.Contains(b) && a.c0 <= CoarseLo(b.c0) && CoarseHi(b.c1) <= a.c1
    && up.r0 == 7 && b.r0 == 3 && CoarseHi(up.r1) <= b.r1 && up.c0 == b.c0 && up.c1 == b.c1
    && Known(from.input, 1, have, s.inG[3]) && Known(from.fine, 4, have, s.g[3])
    && Known(from.ux, 4, Box(b.r0, b.r1, a.c0, a.c1), s.up[3]) && Known(from.uxOut, 1, Box(b.r0, b.r1, a.c0, a.c1), s.outUp[3])
  }

  method ShiftedAdd<P(0, !new)>(e: Kernels<P>, outL: Window<P>, uxOut: Window<P>, outG: Window<P>, dst: Window<P>,
                                b: Box, up: Box, t1: int, t2: int, ghost a: Box,
                                ghost l: Stage<P>, ghost f: Stage<P>, ghost g: Stage<P>, ghost g': Stage<P>)
    requires -1 <= t1 && up.r0 == 7 && b.r0 == 3 && CoarseHi(up.r1) <= b.r1 && up.c0 == b.c0 && up.c1 == b.c1
    requires a.c0 <= CoarseLo(b.c0) && CoarseHi(b.c1) <= a.c1
    requires Known(outL, 1, ShiftedTile(b, t1, t2, 1, 8), l) && Known(uxOut, 1, Box(b.r0, b.r1, a.c0, a.c1), f)
    requires outG.buf.Valid() && Shape(outG.buf, 1, 10, 256) && outG.r0 == 4 * t1 && outG.c0 == 256 * t2
    requires CanStore(dst, 1, up)
    requires outG.buf.data !in {outL.buf.data, uxOut.buf.data, dst.buf.data}
    requires CollapseLaw(e, l, f, g) && UpRowLaw(e, g, g')
    modifies outG.buf.data, dst.buf.data
    ensures Holds(dst, 1, RowsTile(b, up, t1, t2), g')
    ensures forall k, i, j {:trigger dst.At(k, i, j)} ::
              !(k == 0 && RowsTile(b, up, t1, t2).Has(i, j)) ==> dst.At(k, i, j) == old(dst.At(k, i, j))
  {
    ShiftedColumns(b, a, t2);
    ShiftedReads(b, up, t1);
    ShiftedNestsCover(up, t1);
    Collapse(e, outL, uxOut, outG, ShiftedTile(b, t1, t2, 2, 7), ShiftedTile(b, t1, t2, 1, 8), Box(b.r0, b.r1, a.c0, a.c1), l, f, g);
    var rows := RowsTile(b, up, t1, t2);
    UpRows(e, outG, dst, 1, ShiftedNests(up, t1), rows.c0, rows.c1, rows, ShiftedTile(b, t1, t2, 2, 7), g, g');
  }

  /** one tile: laplacian_polymage.cpp:522-631 */
  method ShiftedOutTile<P(0, !new)>(e: Kernels<P>, from: ShiftedSources<P>, dst: Window<P>, pads: ShiftedScratch<P>,
                                    b: Box, up: Box, t1: int, t2: int, ghost have: Box, ghost a: Box, ghost s: Stages<P>)
    requires -1 <= t1 && ShiftedReady(e, s, from, have, b, a, up)
    requires pads.Ok(from, dst) && from.Apart(dst.buf.data) && CanStore(dst, 1, up)
    modifies pads.u.data, pads.outL.data, pads.outG.data, dst.buf.data
    ensures ShiftedReady(e, s, from, have, b, a, up)
    ensures Holds(dst, 1, RowsTile(b, up, t1, t2), s.outUp[2])
    ensures forall k, i, j {:trigger dst.At(k, i, j)} ::
              !(k == 0 && RowsTile(b, up, t1, t2).Has(i, j)) ==> dst.At(k, i, j) == old(dst.At(k, i, j))
  {
    var u, outL := Window(pads.u, 4 * t1, 256 * t2), Window(pads.outL, 4 * t1, 256 * t2);
    var outG := Window(pads.outG, 4 * t1, 256 * t2);
    ShiftedColumns(b, a, t2);
    Details(e, from.fine, from.ux, u, 4, ShiftedTile(b, t1, t2, 0, 9), have, Box(b.r0, b.r1, a.c0, a.c1), s.g[3], s.up[3], s.lap[3]);
    PickPlanes(e, from.input, u, outL, ShiftedTile(b, t1, t2, 1, 8), have, ShiftedTile(b, t1, t2, 0, 9), s.inG[3], s.lap[3], s.outL[3]);
    ShiftedAdd(e, outL, from.uxOut, outG, dst, b, up, t1, t2, a, s.outL[3], s.outUp[3], s.outG[3], s.outUp[2]);
  }

  method NewShiftedScratch<P(0)>(from: ShiftedSources<P>, dst: Window<P>, stray: (int, int, int) -> P)
    returns (pads: ShiftedScratch<P>)
    ensures pads.Ok(from, dst)
    ensures fresh(pads.u.data) && fresh(pads.outL.data) && fresh(pads.outG.data)
  {
    var u := new Buffer(4, 10, 256, stray);
    var outL := new Buffer(1, 10, 256, stray);
    var outG := new Buffer(1, 10, 256, stray);
    pads := ShiftedScratch(u, outL, outG);
  }

  method ShiftedOutRow<P(0, !new)>(e: Kernels<P>, from: ShiftedSources<P>, dst: Window<P>, b: Box, up: Box, t1: int, ct: int,
                                   stray: (int, int, int) -> P, ghost have: Box, ghost a: Box, ghost s: Stages<P>)
    requires -1 <= t1 && -1 <= ct && 0 <= b.c0 && b.c1 <= 256 * ct + 255 && ShiftedReady(e, s, from, have, b, a, up)
    requires from.Apart(dst.buf.data) && CanStore(dst, 1, up)
    modifies dst.buf.data
    ensures ShiftedReady(e, s, from, have, b, a, up)
    ensures Holds(dst, 1, Box(Max(up.r0, 8 * t1 + 6), Min(8 * t1 + 13, up.r1), b.c0, b.c1), s.outUp[2])
    ensures forall k, i, j {:trigger dst.At(k, i, j)} ::
              !(8 * t1 + 6 <= i <= 8 * t1 + 13) ==> dst.At(k, i, j) == old(dst.At(k, i, j))
  {
    var pads := NewShiftedScratch(from, dst, stray);
    var t2 := 0;
    while t2 <= ct
      invariant 0 <= t2 <= ct + 1
      invariant ShiftedReady(e, s, from, have, b, a, up)
      invariant Holds(dst, 1, Box(Max(up.r0, 8 * t1 + 6), Min(8 * t1 + 13, up.r1), b.c0, Min(256 * t2 - 1, b.c1)), s.outUp[2])
      invariant forall k, i, j {:trigger dst.At(k, i, j)} ::
                  !(8 * t1 + 6 <= i <= 8 * t1 + 13) ==> dst.At(k, i, j) == old(dst.At(k, i, j))
    {
      ShiftedOutTile(e, from, dst, pads, b, up, t1, t2, have, a, s);
      t2 := t2 + 1;
    }
  }

  /** laplacian_polymage.cpp:516-632 */
  method ShiftedOutTiled<P(0, !new)>(e: Kernels<P>, from: ShiftedSources<P>, b: Box, up: Box, rt: int, ct: int,
                                     stray: (int, int, int) -> P, ghost have: Box, ghost a: Box, ghost s: Stages<P>)
    returns (dst: Window<P>)
    requires -1 <= rt && up.r1 <= 8 * rt + 13 && -1 <= ct && 0 <= b.c0 && b.c1 <= 256 * ct + 255
    requires up.r0 <= up.r1 + 1 && up.c0 <= up.c1 + 1 && ShiftedReady(e, s, from, have, b, a, up)
    ensures Known(dst, 1, up, s.outUp[2]) && fresh(dst.buf.data)
  {
    var buf := new Buffer(1, up.r1 - up.r0 + 1, up.c1 - up.c0 + 1, stray);
    dst := Window(buf, up.r0, up.c0);
    var t1 := -1;
    while t1 <= rt
      invariant -1 <= t1 <= rt + 1
      invariant ShiftedReady(e, s, from, have, b, a, up)
      invariant Holds(dst, 1, Box(up.r0, Min(8 * t1 + 5, up.r1), up.c0, up.c1), s.outUp[2])
    {
      ShiftedOutRow(e, from, dst, b, up, t1, ct, stray, have, a, s);
      t1 := t1 + 1;
    }
  }
}
