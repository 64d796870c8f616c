/** The tiles of interpolate_polymage.cpp: four downsampled levels, and one fused tile for interpolated levels 3 to 0
    and the result. */
module InterpolateTiled {
  import opened Buffers
  import opened Nests
  import opened InterpolateSpec
  import opened InterpolateStages
  import opened InterpolateNaive

  // Level l + 1 from level l, in tiles of 32 x 64 cells: lines 115-263, 264-412, 413-561, 562-705.

  /** the bounds of the loops over tiles, and from which column tile on the right border of Dx is stored */
  datatype DownLoops = DownLoops(t1: int, t2: int, right: int)

  function Loops(l: nat): DownLoops {
    if l == 0 then DownLoops(40, 12, 11) else if l == 1 then DownLoops(20, 6, 5) else if l == 2 then DownLoops(10, 3, 2)
    else DownLoops(5, 1, 1)
  }

  function DxPad(t1: int, t2: int): Box { Box(32 * t1, 32 * t1 + 31, 128 * t2, 128 * t2 + 129) }

  function DxBorders(l: nat, t1: int, t2: int): Borders {
    var n := Loops(l);
    Borders(t2 < n.right && t2 <= 0, t2 >= n.right, t1 != n.t1 && t1 == 0, t1 == n.t1,
            32 * t1, Min(Rows(l + 1) + 1, 32 * t1 + 31), Max(0, 128 * t2), Min(Cols(l) + 1, 128 * t2 + 129))
  }

  function DxNest(l: nat, t1: int, t2: int): Box {
    Box(Max(1, 32 * t1), Min(Rows(l + 1), 32 * t1 + 31), Max(1, 128 * t2), Min(Cols(l), 128 * t2 + 129))
  }

  function DBorders(l: nat, t1: int, t2: int): Borders {
    var n := Loops(l);
    Borders(t2 <= 0, t2 > 0 && t2 == n.t2, t1 != n.t1 && t1 == 0, t1 == n.t1,
            32 * t1, Min(Rows(l + 1) + 1, 32 * t1 + 31), Max(0, 64 * t2), Min(Cols(l + 1) + 1, 64 * t2 + 64))
  }

  /** Nothing in column tile -1. Levels 1 to 3 also skip the last tile, where the nest is empty. */
  function DNest(l: nat, t1: int, t2: int): Box {
    Box(Max(1, 32 * t1), Min(Rows(l + 1), 32 * t1 + 31), Max(1, 64 * t2 + 1), Min(Cols(l + 1), 64 * t2 + 64))
  }

  /** the cells of level l + 1 that tiles up to t2 in row t1 have stored, in columns lo and after */
  function DBand(l: nat, t1: int, lo: int, t2: int): Box {
    Box(32 * t1, Min(Rows(l + 1) + 1, 32 * t1 + 31), lo, if t2 < 0 then -1 else if t2 >= Loops(l).t2 then Cols(l + 1) + 1 else 64 * t2 + 64)
  }

  /** the cells that tile t2 adds */
  function DTile(l: nat, t1: int, t2: int): Box {
    if t2 < 0 then Box(1, 0, 1, 0) else DBand(l, t1, if t2 == 0 then 0 else 64 * t2 + 1, t2)
  }

  /** where Dx has to be right for that */
  function DxGood(l: nat, t1: int, t2: int): Box {
    if t2 < 0 then Box(1, 0, 1, 0)
    else Box(Max(1, 32 * t1), Min(Rows(l + 1), 32 * t1 + 31), 128 * t2, Min(Cols(l), 128 * t2 + 128))
  }

  ghost predicate BordersIn(b: Borders, R: int, C: int, box: Box) {
    forall i, j {:trigger box.Has(i, j)} :: b.Has(R, C, i, j) ==> box.Has(i, j)
  }

  lemma DxTileFits(l: nat, t1: int, t2: int)
    requires l <= 3 && 0 <= t1 <= Loops(l).t1 && -1 <= t2 <= Loops(l).t2
    ensures DxPad(t1, t2).Contains(DxNest(l, t1, t2)) && BordersIn(DxBorders(l, t1, t2), Rows(l + 1), Cols(l), DxPad(t1, t2))
    ensures Inside(DxNest(l, t1, t2), Rows(l + 1), Cols(l))
    ensures Covers(DxGood(l, t1, t2), DxNest(l, t1, t2), DxBorders(l, t1, t2), Rows(l + 1), Cols(l))
    ensures var n := InnerOf(DxGood(l, t1, t2), Rows(l + 1), Cols(l)); Extent(l).Contains(Box(2 * n.r0 - 2, 2 * n.r1, n.c0, n.c1))
  {
  }

  lemma DTileFits(l: nat, t1: int, t2: int)
    requires l <= 3 && 0 <= t1 <= Loops(l).t1 && -1 <= t2 <= Loops(l).t2
    ensures Extent(l + 1).Contains(DNest(l, t1, t2)) && BordersIn(DBorders(l, t1, t2), Rows(l + 1), Cols(l + 1), Extent(l + 1))
    ensures Inside(DNest(l, t1, t2), Rows(l + 1), Cols(l + 1))
    ensures Covers(DTile(l, t1, t2), DNest(l, t1, t2), DBorders(l, t1, t2), Rows(l + 1), Cols(l + 1))
    ensures var n := InnerOf(DTile(l, t1, t2), Rows(l + 1), Cols(l + 1)); DxGood(l, t1, t2).Contains(Box(n.r0, n.r1, 2 * n.c0 - 2, 2 * n.c1))
  {
  }

  lemma BordersStore<P(0)>(w: Window<P>, box: Box, b: Borders, R: int, C: int)
    requires Sized(w, 4, box) && BordersIn(b, R, C, box)
    ensures CanStoreBorders(w, R, C, b)
  {
    forall k, i, j | 0 <= k < 4 && b.Has(R, C, i, j) ensures w.Has(k, i, j) {
      assert box.Has(i, j);
    }
  }

  method DownTile<P(0, !new)>(e: Kernels<P>, l: nat, src: Window<P>, dst: Window<P>, pad: Window<P>, t1: int, t2: int,
                              ghost f: Stage<P>, ghost x: Stage<P>, ghost g: Stage<P>)
    requires l <= 3 && 0 <= t1 <= Loops(l).t1 && -1 <= t2 <= Loops(l).t2
    requires Known(src, 4, Extent(l), f) && LawfulDown(e, l, f, x, g)
    requires Sized(dst, 4, Extent(l + 1)) && Sized(pad, 4, DxPad(0, 0))
    requires pad.buf.data !in {src.buf.data, dst.buf.data} && dst.buf.data != src.buf.data
    modifies pad.buf.data, dst.buf.data
    ensures Known(src, 4, Extent(l), f) && Known(dst, 4, DTile(l, t1, t2), g)
    ensures forall k, i, j {:trigger dst.At(k, i, j)} :: !(0 <= k < 4 && DNest(l, t1, t2).Has(i, j)) ==>
              dst.At(k, i, j) == if 0 <= k < 4 && DBorders(l, t1, t2).Has(Rows(l + 1), Cols(l + 1), i, j) then e.zero else old(dst.At(k, i, j))
  {
    var R, C, Cx := Rows(l + 1), Cols(l + 1), Cols(l);
    var dx := Window(pad.buf, 32 * t1, 128 * t2);
    DxTileFits(l, t1, t2);
    BordersStore(dx, DxPad(t1, t2), DxBorders(l, t1, t2), R, Cx);
    SizedCanStore(dx, 4, DxPad(t1, t2), DxNest(l, t1, t2));
    DownRowsStage(e, src, dx, R, Cx, DxBorders(l, t1, t2), DxNest(l, t1, t2), DxGood(l, t1, t2), Extent(l), f, x);
    DTileFits(l, t1, t2);
    BordersStore(dst, Extent(l + 1), DBorders(l, t1, t2), R, C);
    SizedCanStore(dst, 4, Extent(l + 1), DNest(l, t1, t2));
    DownColsStage(e, dx, dst, R, C, DBorders(l, t1, t2), DNest(l, t1, t2), DTile(l, t1, t2), DxGood(l, t1, t2), x, g);
  }

  /** a row of tiles: D's rows 32 t1 .. 32 t1 + 31, borders included */
  method DownRowOfTiles<P(0, !new)>(e: Kernels<P>, l: nat, src: Window<P>, dst: Window<P>, pad: Window<P>, t1: int,
                                    ghost f: Stage<P>, ghost x: Stage<P>, ghost g: Stage<P>)
    requires l <= 3 && 0 <= t1 <= Loops(l).t1 && Known(src, 4, Extent(l), f) && LawfulDown(e, l, f, x, g)
    requires Sized(dst, 4, Extent(l + 1)) && Sized(pad, 4, DxPad(0, 0))
    requires pad.buf.data !in {src.buf.data, dst.buf.data} && dst.buf.data != src.buf.data
    modifies pad.buf.data, dst.buf.data
    ensures Known(src, 4, Extent(l), f) && Known(dst, 4, DBand(l, t1, 0, Loops(l).t2), g)
    ensures forall k, i, j {:trigger dst.At(k, i, j)} :: !(32 * t1 <= i <= 32 * t1 + 31) ==>
              dst.At(k, i, j) == old(dst.At(k, i, j)) || (0 <= k < 4 && !Inner(Rows(l + 1), Cols(l + 1), i, j) && dst.At(k, i, j) == e.zero)
  {
    var t2 := -1;
    while t2 <= Loops(l).t2
      invariant -1 <= t2 <= Loops(l).t2 + 1
      invariant Known(src, 4, Extent(l), f) && Known(dst, 4, DBand(l, t1, 0, t2 - 1), g)
      invariant forall k, i, j {:trigger dst.At(k, i, j)} :: !(32 * t1 <= i <= 32 * t1 + 31) ==>
                  dst.At(k, i, j) == old(dst.At(k, i, j)) || (0 <= k < 4 && !Inner(Rows(l + 1), Cols(l + 1), i, j) && dst.At(k, i, j) == e.zero)
    {
      ghost var was := Snapshot(dst);
      DownTile(e, l, src, dst, pad, t1, t2, f, x, g);
      KeptBand(e, l, dst, was, t1, t2, x, g);
      t2 := t2 + 1;
    }
  }

  /** A tile leaves the band it extends: it changes earlier cells only to the border's zero. */
  lemma KeptBand<P(0, !new)>(e: Kernels<P>, l: nat, dst: Window<P>, was: Stage<P>, t1: int, t2: int, x: Stage<P>, g: Stage<P>)
    requires l <= 3 && 0 <= t1 <= Loops(l).t1 && -1 <= t2 <= Loops(l).t2
    requires DownColLaw(e, x, Rows(l + 1), Cols(l + 1), g) && Known(dst, 4, DTile(l, t1, t2), g)
    requires forall k, i, j :: 0 <= k < 4 && DBand(l, t1, 0, t2 - 1).Has(i, j) ==> was(k, i, j) == g(k, i, j)
    requires forall k, i, j {:trigger dst.At(k, i, j)} :: !(0 <= k < 4 && DNest(l, t1, t2).Has(i, j)) ==>
               dst.At(k, i, j) == if 0 <= k < 4 && DBorders(l, t1, t2).Has(Rows(l + 1), Cols(l + 1), i, j) then e.zero else was(k, i, j)
    ensures Known(dst, 4, DBand(l, t1, 0, t2), g)
  {
    forall k, i, j | 0 <= k < 4 && DBand(l, t1, 0, t2).Has(i, j) ensures dst.At(k, i, j) == g(k, i, j) {
      if !DTile(l, t1, t2).Has(i, j) {
        assert DBand(l, t1, 0, t2 - 1).Has(i, j) && !DNest(l, t1, t2).Has(i, j);
      }
    }
  }

  /** the rows of level l + 1 stored by tile rows before t1 */
  function DRows(l: nat, t1: int): Box {
    Box(0, if t1 > Loops(l).t1 then Rows(l + 1) + 1 else 32 * t1 - 1, 0, Cols(l + 1) + 1)
  }

  method DownTiled<P(0, !new)>(e: Kernels<P>, l: nat, src: Window<P>, stray: (int, int, int) -> P,
                               ghost f: Stage<P>, ghost x: Stage<P>, ghost g: Stage<P>)
    returns (d: Window<P>)
    requires l <= 3 && Known(src, 4, Extent(l), f) && LawfulDown(e, l, f, x, g)
    ensures Known(d, 4, Extent(l + 1), g) && fresh(d.buf.data)
  {
    d := NewWindow(4, Extent(l + 1), stray);
    var t1 := 0;
    while t1 <= Loops(l).t1
      invariant 0 <= t1 <= Loops(l).t1 + 1
      invariant Known(src, 4, Extent(l), f) && Known(d, 4, DRows(l, t1), g)
    {
      var pad := NewWindow(4, DxPad(0, 0), stray);
      DownRowOfTiles(e, l, src, d, pad, t1, f, x, g);
      forall k, i, j | 0 <= k < 4 && DRows(l, t1 + 1).Has(i, j) ensures d.At(k, i, j) == g(k, i, j) {
        if DBand(l, t1, 0, Loops(l).t2).Has(i, j) {
          assert d.At(k, i, j) == g(k, i, j);
        } else {
          assert DRows(l, t1).Has(i, j);
        }
      }
      t1 := t1 + 1;
    }
  }

  // The fused tile: lines 1350-1962.

  /** how far from the scratchpad's origin the interior nests of a level reach: rows and columns of the one along rows,
      of the one along columns */
  datatype Reach = Reach(pu: nat, qu: nat, po: nat, qo: nat)

  function ReachOf(l: nat): Reach {
    if l == 3 then Reach(6, 9, 6, 19) else if l == 2 then Reach(12, 18, 11, 36) else if l == 1 then Reach(21, 35, 20, 69)
    else Reach(37, 67, 34, 131)
  }

  /** Only these tiles store part of the result. */
  predicate Emits(t1: int, t2: int) { 0 <= t1 <= 79 && 0 <= t2 <= 11 }

  function PadOf(r0: int, hr: nat, c0: int, w: nat): Box { Box(r0, r0 + hr, c0, c0 + w) }

  function TileBorders(t1: int, t2: int, R: int, C: int, pad: Box): Borders {
    Borders(t2 <= 0, t2 >= 11, t1 <= 0, t1 >= 79, Max(0, pad.r0), Min(R + 1, pad.r1), Max(0, pad.c0), Min(C + 1, pad.c1))
  }

  function NestOf(pad: Box, R: int, C: int, p: nat, q: nat): Box {
    Box(Max(1, pad.r0), Min(R, pad.r0 + p), Max(1, pad.c0), Min(C, pad.c0 + q))
  }

  /** the n x w cells after the scratchpad's first row and column, in a tile that emits */
  function GoodOf(t1: int, t2: int, pad: Box, n: nat, w: nat): Box {
    if Emits(t1, t2) then Box(pad.r0 + 1, pad.r0 + n, pad.c0 + 1, pad.c0 + w) else Box(1, 0, 1, 0)
  }

  // The tile at (t1, t2), by level. Row and column factors are 4, 8, 16, 32 and 8, 16, 32, 64, 128.

  function UxPad(l: nat, t1: int, t2: int): Box {
    if l == 3 then PadOf(4 * t1, 6, 8 * t2, 9) else if l == 2 then PadOf(8 * t1, 13, 16 * t2, 19)
    else if l == 1 then PadOf(16 * t1, 27, 32 * t2, 39) else PadOf(32 * t1, 55, 64 * t2, 79)
  }

  function UpPad(l: nat, t1: int, t2: int): Box {
    if l == 3 then PadOf(4 * t1, 6, 16 * t2, 19) else if l == 2 then PadOf(8 * t1, 13, 32 * t2, 39)
    else if l == 1 then PadOf(16 * t1, 27, 64 * t2, 79) else PadOf(32 * t1, 55, 128 * t2, 159)
  }

  function UxGood(l: nat, t1: int, t2: int): Box {
    var pad := UxPad(l, t1, t2);
    if l == 3 then GoodOf(t1, t2, pad, 5, 9) else if l == 2 then GoodOf(t1, t2, pad, 9, 17)
    else if l == 1 then GoodOf(t1, t2, pad, 17, 33) else GoodOf(t1, t2, pad, 32, 65)
  }

  /** Level 4 is whole. */
  function UpGood(l: nat, t1: int, t2: int): Box {
    var pad := UpPad(l, t1, t2);
    if l == 4 then Extent(4) else if l == 3 then GoodOf(t1, t2, pad, 5, 17) else if l == 2 then GoodOf(t1, t2, pad, 9, 33)
    else if l == 1 then GoodOf(t1, t2, pad, 17, 65) else GoodOf(t1, t2, pad, 32, 128)
  }

  function UxNest(l: nat, t1: int, t2: int): Box {
    NestOf(UxPad(l, t1, t2), Rows(l), Cols(l + 1), ReachOf(l).pu, ReachOf(l).qu)
  }

  function UpNest(l: nat, t1: int, t2: int): Box {
    NestOf(UpPad(l, t1, t2), Rows(l), Cols(l), ReachOf(l).po, ReachOf(l).qo)
  }

  function UxBorders(l: nat, t1: int, t2: int): Borders { TileBorders(t1, t2, Rows(l), Cols(l + 1), UxPad(l, t1, t2)) }

  function UpBorders(l: nat, t1: int, t2: int): Borders { TileBorders(t1, t2, Rows(l), Cols(l), UpPad(l, t1, t2)) }

  lemma UxFits(l: nat, t1: int, t2: int)
    requires l <= 3 && -1 <= t1 <= 80 && -1 <= t2 <= 12
    ensures UxPad(l, t1, t2).Contains(UxNest(l, t1, t2)) && BordersIn(UxBorders(l, t1, t2), Rows(l), Cols(l + 1), UxPad(l, t1, t2))
    ensures Inside(UxNest(l, t1, t2), Rows(l), Cols(l + 1))
  {
  }

  lemma UxCovers(l: nat, t1: int, t2: int)
    requires l <= 3 && -1 <= t1 <= 80 && -1 <= t2 <= 12
    ensures Covers(UxGood(l, t1, t2), UxNest(l, t1, t2), UxBorders(l, t1, t2), Rows(l), Cols(l + 1))
  {
  }

  lemma UpFits(l: nat, t1: int, t2: int)
    requires l <= 3 && -1 <= t1 <= 80 && -1 <= t2 <= 12
    ensures UpPad(l, t1, t2).Contains(UpNest(l, t1, t2)) && BordersIn(UpBorders(l, t1, t2), Rows(l), Cols(l), UpPad(l, t1, t2))
    ensures Inside(UpNest(l, t1, t2), Rows(l), Cols(l))
  {
  }

  lemma UpCovers(l: nat, t1: int, t2: int)
    requires l <= 3 && -1 <= t1 <= 80 && -1 <= t2 <= 12
    ensures Covers(UpGood(l, t1, t2), UpNest(l, t1, t2), UpBorders(l, t1, t2), Rows(l), Cols(l))
  {
  }

  /** The chain of halos: what a level needs of the level above, and of its own upsampled rows, is in their good cells. */
  lemma UxReads(l: nat, t1: int, t2: int)
    requires l <= 3 && -1 <= t1 <= 80 && -1 <= t2 <= 12
    ensures var n := InnerOf(UxGood(l, t1, t2), Rows(l), Cols(l + 1));
            UpGood(l + 1, t1, t2).Contains(Box((n.r0 + 1) / 2, (n.r1 + 2) / 2, n.c0, n.c1))
  {
  }

  lemma UpReads(l: nat, t1: int, t2: int)
    requires l <= 3 && -1 <= t1 <= 80 && -1 <= t2 <= 12
    ensures var n := InnerOf(UpGood(l, t1, t2), Rows(l), Cols(l));
            UxGood(l, t1, t2).Contains(Box(n.r0, n.r1, (n.c0 + 1) / 2, (n.c1 + 2) / 2))
  {
  }

  lemma InnerInExtent(good: Box, l: nat)
    ensures Extent(l).Contains(InnerOf(good, Rows(l), Cols(l)))
  {
  }

  /** a level's upsampled rows in the fused tile */
  method FusedRows<P(0, !new)>(e: Kernels<P>, l: nat, above: Window<P>, ux: Window<P>, t1: int, t2: int,
                               ghost fa: Stage<P>, ghost h: Stage<P>)
    requires l <= 3 && -1 <= t1 <= 80 && -1 <= t2 <= 12 && UpRowLaw(e, fa, Rows(l), Cols(l + 1), h)
    requires Known(above, 4, UpGood(l + 1, t1, t2), fa) && Sized(ux, 4, UxPad(l, t1, t2)) && ux.buf.data != above.buf.data
    modifies ux.buf.data
    ensures Known(ux, 4, UxGood(l, t1, t2), h)
  {
    UxFits(l, t1, t2);
    UxCovers(l, t1, t2);
    UxReads(l, t1, t2);
    BordersStore(ux, UxPad(l, t1, t2), UxBorders(l, t1, t2), Rows(l), Cols(l + 1));
    SizedCanStore(ux, 4, UxPad(l, t1, t2), UxNest(l, t1, t2));
    UpRowsStage(e, above, ux, Rows(l), Cols(l + 1), UxBorders(l, t1, t2), UxNest(l, t1, t2),
                UxGood(l, t1, t2), UpGood(l + 1, t1, t2), fa, h);
  }

  /** the level itself */
  method FusedBlend<P(0, !new)>(e: Kernels<P>, l: nat, d: Window<P>, ux: Window<P>, up: Window<P>, t1: int, t2: int,
                                ghost f: Stage<P>, ghost h: Stage<P>, ghost g: Stage<P>)
    requires l <= 3 && -1 <= t1 <= 80 && -1 <= t2 <= 12 && BlendLaw(e, f, h, Rows(l), Cols(l), g)
    requires Known(d, 4, Extent(l), f) && Known(ux, 4, UxGood(l, t1, t2), h)
    requires Sized(up, 4, UpPad(l, t1, t2)) && up.buf.data !in {d.buf.data, ux.buf.data}
    modifies up.buf.data
    ensures Known(up, 4, UpGood(l, t1, t2), g)
  {
    UpFits(l, t1, t2);
    UpCovers(l, t1, t2);
    UpReads(l, t1, t2);
    InnerInExtent(UpGood(l, t1, t2), l);
    BordersStore(up, UpPad(l, t1, t2), UpBorders(l, t1, t2), Rows(l), Cols(l));
    SizedCanStore(up, 4, UpPad(l, t1, t2), UpNest(l, t1, t2));
    BlendStage(e, d, ux, up, Rows(l), Cols(l), UpBorders(l, t1, t2), UpNest(l, t1, t2),
               UpGood(l, t1, t2), Extent(l), UxGood(l, t1, t2), f, h, g);
  }

  /** one level of the fused tile */
  method FusedLevel<P(0, !new)>(e: Kernels<P>, l: nat, above: Window<P>, d: Window<P>, ux: Window<P>, up: Window<P>, t1: int, t2: int,
                                ghost fa: Stage<P>, ghost f: Stage<P>, ghost h: Stage<P>, ghost g: Stage<P>)
    requires l <= 3 && -1 <= t1 <= 80 && -1 <= t2 <= 12 && LawfulUp(e, l, fa, f, h, g)
    requires Known(above, 4, UpGood(l + 1, t1, t2), fa) && Known(d, 4, Extent(l), f)
    requires Sized(ux, 4, UxPad(l, t1, t2)) && Sized(up, 4, UpPad(l, t1, t2))
    requires ux.buf.data !in {above.buf.data, d.buf.data, up.buf.data} && up.buf.data != d.buf.data
    modifies ux.buf.data, up.buf.data
    ensures Known(up, 4, UpGood(l, t1, t2), g)
  {
    FusedRows(e, l, above, ux, t1, t2, fa, h);
    FusedBlend(e, l, d, ux, up, t1, t2, f, h, g);
  }

  /** the eight scratchpads: ux and up of levels 0 to 3 */
  datatype Pads<!P(0)> = Pads(ux0: Buffer<P>, up0: Buffer<P>, ux1: Buffer<P>, up1: Buffer<P>,
                              ux2: Buffer<P>, up2: Buffer<P>, ux3: Buffer<P>, up3: Buffer<P>)
  {
    function Lower(): set<array<P>> { {ux3.data, up3.data, ux2.data, up2.data} }

    function Upper(): set<array<P>> { {ux1.data, up1.data, ux0.data, up0.data} }

    function Data(): set<array<P>> { Lower() + Upper() }

    predicate Apart() {
      && ux3.data !in {up3.data, ux2.data, up2.data} && up3.data !in {ux2.data, up2.data} && ux2.data != up2.data
      && ux1.data !in {up1.data, ux0.data, up0.data} && up1.data !in {ux0.data, up0.data} && ux0.data != up0.data
      && Lower() !! Upper()
    }

    ghost predicate Ok() {
      && Apart()
      && Pad(ux3, 7, 10) && Pad(up3, 7, 20) && Pad(ux2, 14, 20) && Pad(up2, 14, 40)
      && Pad(ux1, 28, 40) && Pad(up1, 28, 80) && Pad(ux0, 56, 80) && Pad(up0, 56, 160)
    }
  }

  ghost predicate Pad<P(0)>(b: Buffer<P>, rows: nat, cols: nat) {
    b.Valid() && Shape(b, 4, rows, cols)
  }

  /** what a tile reads: level 4 interpolated, levels 0 to 3 downsampled */
  ghost predicate Sources<P(0, !new)>(e: Kernels<P>, s: Stages<P>, u4: Window<P>, w: seq<Window<P>>)
    reads u4.buf.data, set l | 0 <= l < |w| :: w[l].buf.data
  {
    && Lawful(e, s) && |w| == 10 && Known(u4, 4, Extent(4), s.up[4]) && Downs(w, s.d)
  }

  ghost predicate Clear<P(0)>(data: set<array<P>>, u4: Window<P>, w: seq<Window<P>>) {
    u4.buf.data !in data && forall l {:trigger w[l]} :: 0 <= l < |w| ==> w[l].buf.data !in data
  }

  /** levels 3 and 2 */
  method LowerLevels<P(0, !new)>(e: Kernels<P>, u4: Window<P>, w: seq<Window<P>>, p: Pads<P>, t1: int, t2: int, ghost s: Stages<P>)
    returns (up2: Window<P>)
    requires Sources(e, s, u4, w) && p.Ok() && Clear(p.Data(), u4, w) && -1 <= t1 <= 80 && -1 <= t2 <= 12
    modifies p.Lower()
    ensures up2 == Window(p.up2, 8 * t1, 32 * t2) && Known(up2, 4, UpGood(2, t1, t2), s.up[2])
  {
    assert LawfulUp(e, 3, s.up[4], s.d[3], s.ux[3], s.up[3]) && LawfulUp(e, 2, s.up[3], s.d[2], s.ux[2], s.up[2]);
    assert Known(w[3], 4, Extent(3), s.d[3]) && Known(w[2], 4, Extent(2), s.d[2]);
    var up3 := Window(p.up3, 4 * t1, 16 * t2);
    FusedLevel(e, 3, u4, w[3], Window(p.ux3, 4 * t1, 8 * t2), up3, t1, t2, s.up[4], s.d[3], s.ux[3], s.up[3]);
    up2 := Window(p.up2, 8 * t1, 32 * t2);
    FusedLevel(e, 2, up3, w[2], Window(p.ux2, 8 * t1, 16 * t2), up2, t1, t2, s.up[3], s.d[2], s.ux[2], s.up[2]);
  }

  /** levels 1 and 0 */
  method UpperLevels<P(0, !new)>(e: Kernels<P>, up2: Window<P>, u4: Window<P>, w: seq<Window<P>>, p: Pads<P>, t1: int, t2: int,
                                 ghost s: Stages<P>)
    returns (up0: Window<P>)
    requires Sources(e, s, u4, w) && p.Ok() && Clear(p.Data(), u4, w) && -1 <= t1 <= 80 && -1 <= t2 <= 12
    requires Known(up2, 4, UpGood(2, t1, t2), s.up[2]) && up2.buf.data !in p.Upper()
    modifies p.Upper()
    ensures up0 == Window(p.up0, 32 * t1, 128 * t2) && Known(up0, 4, UpGood(0, t1, t2), s.up[0])
  {
    assert LawfulUp(e, 1, s.up[2], s.d[1], s.ux[1], s.up[1]) && LawfulUp(e, 0, s.up[1], s.d[0], s.ux[0], s.up[0]);
    assert Known(w[1], 4, Extent(1), s.d[1]) && Known(w[0], 4, Extent(0), s.d[0]);
    var up1 := Window(p.up1, 16 * t1, 64 * t2);
    FusedLevel(e, 1, up2, w[1], Window(p.ux1, 16 * t1, 32 * t2), up1, t1, t2, s.up[2], s.d[1], s.ux[1], s.up[1]);
    up0 := Window(p.up0, 32 * t1, 128 * t2);
    FusedLevel(e, 0, up1, w[0], Window(p.ux0, 32 * t1, 64 * t2), up0, t1, t2, s.up[1], s.d[0], s.ux[0], s.up[0]);
  }

  /** the result pixels of tile (t1, t2) */
  function TilePixels(t1: int, t2: int): Box {
    if Emits(t1, t2) then Box(32 * t1, 32 * t1 + 31, 128 * t2, 128 * t2 + 127) else Box(1, 0, 1, 0)
  }

  /** the last nest, guarded */
  method Emit<P(0, !new)>(e: Kernels<P>, up0: Window<P>, out: Window<P>, t1: int, t2: int, ghost f: Stage<P>, ghost g: Stage<P>)
    requires Known(up0, 4, UpGood(0, t1, t2), f) && up0.r0 == 32 * t1 && up0.c0 == 128 * t2
    requires CanStore(out, 3, Image) && out.buf.data != up0.buf.data && NormalLaw(e, f, g)
    modifies out.buf.data
    ensures Known(out, 3, TilePixels(t1, t2), g)
    ensures forall k, i, j {:trigger out.At(k, i, j)} ::
              !(0 <= k < 3 && TilePixels(t1, t2).Has(i, j)) ==> out.At(k, i, j) == old(out.At(k, i, j))
  {
    if Emits(t1, t2) {
      var box := TilePixels(t1, t2);
      FillBox(out, 3, box,
              (k, i, j) requires up0.buf.Valid() reads up0.buf.data => e.normal(up0.At(k, i + 1, j + 1), up0.At(3, i + 1, j + 1)),
              box, g);
    }
  }

  /** one fused tile: lines 1371-1952 */
  method FusedTile<P(0, !new)>(e: Kernels<P>, u4: Window<P>, w: seq<Window<P>>, p: Pads<P>, out: Window<P>, t1: int, t2: int,
                               ghost s: Stages<P>)
    requires Sources(e, s, u4, w) && p.Ok() && Clear(p.Data(), u4, w) && -1 <= t1 <= 80 && -1 <= t2 <= 12
    requires CanStore(out, 3, Image) && out.buf.data !in p.Data() && Clear({out.buf.data}, u4, w)
    modifies p.Data(), out.buf.data
    ensures Sources(e, s, u4, w)
    ensures Known(out, 3, TilePixels(t1, t2), s.out)
    ensures forall k, i, j {:trigger out.At(k, i, j)} ::
              !(0 <= k < 3 && TilePixels(t1, t2).Has(i, j)) ==> out.At(k, i, j) == old(out.At(k, i, j))
  {
    var up2 := LowerLevels(e, u4, w, p, t1, t2, s);
    var up0 := UpperLevels(e, up2, u4, w, p, t1, t2, s);
    Emit(e, up0, out, t1, t2, s.up[0], s.out);
  }

  method NewPad<P(0)>(rows: nat, cols: nat, stray: (int, int, int) -> P) returns (b: Buffer<P>)
    ensures Pad(b, rows, cols) && fresh(b.data)
  {
    b := new Buffer(4, rows, cols, stray);
  }

  method NewPads<P(0)>(stray: (int, int, int) -> P) returns (p: Pads<P>)
    ensures p.Ok() && fresh(p.Data())
  {
    var ux3 := NewPad(7, 10, stray);
    var up3 := NewPad(7, 20, stray);
    var ux2 := NewPad(14, 20, stray);
    var up2 := NewPad(14, 40, stray);
    var ux1 := NewPad(28, 40, stray);
    var up1 := NewPad(28, 80, stray);
    var ux0 := NewPad(56, 80, stray);
    var up0 := NewPad(56, 160, stray);
    p := Pads(ux0, up0, ux1, up1, ux2, up2, ux3, up3);
  }

  /** rows 32 t1 .. 32 t1 + 31 of the result, up to the column before tile t2 */
  function OutBand(t1: int, t2: int): Box {
    Box(Max(0, 32 * t1), Min(2559, 32 * t1 + 31), 0, Min(1535, 128 * t2 - 1))
  }

  /** a row of fused tiles over one set of scratchpads */
  method FusedRow<P(0, !new)>(e: Kernels<P>, u4: Window<P>, w: seq<Window<P>>, p: Pads<P>, out: Window<P>, t1: int, ghost s: Stages<P>)
    requires Sources(e, s, u4, w) && p.Ok() && Clear(p.Data(), u4, w) && -1 <= t1 <= 80
    requires CanStore(out, 3, Image) && out.buf.data !in p.Data() && Clear({out.buf.data}, u4, w)
    modifies p.Data(), out.buf.data
    ensures Sources(e, s, u4, w) && Known(out, 3, OutBand(t1, 12), s.out)
    ensures forall k, i, j {:trigger out.At(k, i, j)} ::
              !(32 * t1 <= i <= 32 * t1 + 31) ==> out.At(k, i, j) == old(out.At(k, i, j))
  {
    var t2 := -1;
    while t2 <= 12
      invariant -1 <= t2 <= 13
      invariant Sources(e, s, u4, w) && Known(out, 3, OutBand(t1, t2), s.out)
      invariant forall k, i, j {:trigger out.At(k, i, j)} ::
                  !(32 * t1 <= i <= 32 * t1 + 31) ==> out.At(k, i, j) == old(out.At(k, i, j))
    {
      FusedTile(e, u4, w, p, out, t1, t2, s);
      t2 := t2 + 1;
    }
  }

  method ScratchRow<P(0, !new)>(e: Kernels<P>, u4: Window<P>, w: seq<Window<P>>, out: Window<P>, t1: int,
                                stray: (int, int, int) -> P, ghost s: Stages<P>)
    requires Sources(e, s, u4, w) && -1 <= t1 <= 80 && CanStore(out, 3, Image) && Clear({out.buf.data}, u4, w)
    modifies out.buf.data
    ensures Sources(e, s, u4, w) && Known(out, 3, OutBand(t1, 12), s.out)
    ensures forall k, i, j {:trigger out.At(k, i, j)} ::
              !(32 * t1 <= i <= 32 * t1 + 31) ==> out.At(k, i, j) == old(out.At(k, i, j))
  {
    var p := NewPads(stray);
    FusedRow(e, u4, w, p, out, t1, s);
  }

  /** lines 1350-1962 */
  method FusedUp<P(0, !new)>(e: Kernels<P>, u4: Window<P>, w: seq<Window<P>>, stray: (int, int, int) -> P, ghost s: Stages<P>)
    returns (out: Window<P>)
    requires Sources(e, s, u4, w)
    ensures Known(out, 3, Image, s.out) && CanStore(out, 3, Image)
  {
    out := NewWindow(3, Image, stray);
    var t1 := -1;
    while t1 <= 80
      invariant -1 <= t1 <= 81
      invariant Sources(e, s, u4, w) && Known(out, 3, Box(0, Min(2559, 32 * t1 - 1), 0, 1535), s.out)
    {
      ScratchRow(e, u4, w, out, t1, stray, s);
      t1 := t1 + 1;
    }
  }

  /** levels 1 to 4 */
  method DownFour<P(0, !new)>(e: Kernels<P>, d: Window<P>, stray: (int, int, int) -> P, ghost s: Stages<P>) returns (w: seq<Window<P>>)
    requires Lawful(e, s) && Known(d, 4, Extent(0), s.d[0])
    ensures |w| == 5 && Downs(w, s.d)
  {
    w := [d];
    while |w| < 5
      invariant 1 <= |w| <= 5 && Downs(w, s.d)
    {
      ghost var l: nat := |w| - 1;
      assert Known(w[l], 4, Extent(l), s.d[l]) && LawfulDown(e, l, s.d[l], s.dx[l], s.d[l + 1]);
      var next := DownTiled(e, |w| - 1, w[|w| - 1], stray, s.d[l], s.dx[l], s.d[l + 1]);
      w := w + [next];
    }
  }

  /** interpolate_polymage.cpp:103-1962 */
  method Tiled<P(0, !new)>(e: Kernels<P>, img: Window<P>, stray: (int, int, int) -> P, ghost s: Stages<P>)
    returns (out: Window<P>)
    requires Lawful(e, s) && Known(img, 4, Extent(0), s.img)
    ensures Known(out, 3, Image, s.out) && CanStore(out, 3, Image)
  {
    var d := Premultiplied(e, img, stray, s.img, s.d[0]);
    var w4 := DownFour(e, d, stray, s);
    var w := DownRest(e, w4, stray, s);
    var u4 := UpRest(e, w, 4, stray, s);
    out := FusedUp(e, u4, w, stray, s);
  }

  /** For every image, stale scratchpad and value outside a row, both programs give the same result. */
  method TiledEqualsNaive<P(0, !new)>(e: Kernels<P>, img: Window<P>, stray: (int, int, int) -> P, stray': (int, int, int) -> P)
    returns (tiled: Window<P>, naive: Window<P>)
    requires img.buf.Valid()
    ensures CanStore(tiled, 3, Image) && CanStore(naive, 3, Image)
    ensures forall k, i, j :: 0 <= k <= 2 && 0 <= i <= 2559 && 0 <= j <= 1535 ==> tiled.At(k, i, j) == naive.At(k, i, j)
  {
    ghost var pixels := Snapshot(img);
    ghost var s := MakeStages(e, pixels);
    tiled := Tiled(e, img, stray, s);
    naive := Naive(e, img, stray', s);
  }
}
