/** Unsharp mask's rows of tiles in parallel: every interleaving gives the mask that the sequential program gives. */
module UnsharpParallel {
  import opened Buffers
  import opened Schedule
  import opened TileMachine
  import opened TileRuns
  import opened UnsharpSpec
  import opened UnsharpEqual

  function BoxOf(b: Bounds, n: int): Box {
    if n == 0 then b.blurx else if n == 1 then b.blury else if n == 2 then b.sharpen else b.mask
  }

  /** blury is right where sharpen needs it. */
  function GoodOf(b: Bounds, n: int): Box {
    if n == 1 then b.sharpen else BoxOf(b, n)
  }

  /** the four nests' bodies */
  function NestCell<P>(e: Kernels<P>, img: Stage<P>, n: int, v: Memory<P>, k: int, i: int, j: int): P {
    if n == 0 then BlurRows(e, img, k, i, j)
    else if n == 1 then BlurCols(e, PadImage(v, 0), k, i, j)
    else if n == 2 then e.sharpen(img(k, i, j), v(1, k, i, j))
    else e.mask(img(k, i, j), v(1, k, i, j), v(2, k, i, j))
  }

  /** Row p of tiles is _T_i1 == p; column t is _T_i2 == t - 1. */
  function Tiles<P>(e: Kernels<P>, R: nat, C: nat, img: Stage<P>): Pipeline<P> {
    Pipeline(UnsharpRows(R), Cut((C + 3) / 512 + 2, 512, -509, 2, C + 1), 3, 3,
             (n, p, t) => BoxOf(TileBounds(R, C, p, t - 1), n),
             (p, t) => (8 * p, 512 * (t - 1)), 8, 518,
             (n, v, k, i, j) => NestCell(e, img, n, v, k, i, j))
  }

  function GoodCells(R: nat, C: nat): Good {
    (n, p, t) => GoodOf(TileBounds(R, C, p, t - 1), n)
  }

  function Specified<P>(s: Stages<P>): Memory<P> {
    (n, k, i, j) => if n == 0 then s.blurx(k, i, j) else if n == 1 then s.blury(k, i, j) else if n == 2 then s.sharpen(k, i, j) else s.mask(k, i, j)
  }

  lemma TilesCut<P>(e: Kernels<P>, R: nat, C: nat, img: Stage<P>)
    ensures Cuts(Tiles(e, R, C, img))
  {
  }

  lemma TilesCovered<P(!new)>(e: Kernels<P>, R: nat, C: nat, img: Stage<P>, n: int, p: int, t: int)
    requires 0 <= n <= 3
    ensures Covered(Tiles(e, R, C, img), GoodCells(R, C), n, p, t)
  {
  }

  /** blury, from blurx in the same tile's scratchpad */
  lemma BluryComputes<P(!new)>(e: Kernels<P>, R: nat, C: nat, s: Stages<P>, p: int, t: int, v: Memory<P>, k: int, i: int, j: int)
    requires BlurColsLaw(e, s.blurx, s.blury) && Ready(Tiles(e, R, C, s.img), Specified(s), GoodCells(R, C), 1, p, t, v)
    requires 0 <= k < 3 && TileBounds(R, C, p, t - 1).sharpen.Has(i, j)
    ensures NestCell(e, s.img, 1, v, k, i, j) == s.blury(k, i, j)
  {
    forall x | j - 2 <= x <= j + 2 ensures PadImage(v, 0)(k, i, x) == s.blurx(k, i, x) {
      assert GoodCells(R, C)(0, p, t).Has(i, x);
      assert v(0, k, i, x) == Specified(s)(0, k, i, x);
    }
    assert s.blury(k, i, j) == BlurCols(e, s.blurx, k, i, j);
  }

  lemma TilesCompute<P(!new)>(e: Kernels<P>, R: nat, C: nat, s: Stages<P>, n: int, p: int, t: int, v: Memory<P>)
    requires Lawful(e, s) && 0 <= n <= 3 && Ready(Tiles(e, R, C, s.img), Specified(s), GoodCells(R, C), n, p, t, v)
    ensures Computes(Tiles(e, R, C, s.img), Specified(s), GoodCells(R, C), n, p, t, v)
  {
    forall k, i, j | 0 <= k < 3 && GoodCells(R, C)(n, p, t).Has(i, j)
      ensures NestCell(e, s.img, n, v, k, i, j) == Specified(s)(n, k, i, j)
    {
      if n == 1 {
        BluryComputes(e, R, C, s, p, t, v, k, i, j);
      } else if n >= 2 {
        assert GoodCells(R, C)(1, p, t).Has(i, j);
        assert v(1, k, i, j) == Specified(s)(1, k, i, j);
        if n == 3 {
          assert GoodCells(R, C)(2, p, t).Has(i, j);
          assert v(2, k, i, j) == Specified(s)(2, k, i, j);
        }
      }
    }
  }

  lemma TilesSound<P(!new)>(e: Kernels<P>, R: nat, C: nat, s: Stages<P>)
    requires Lawful(e, s)
    ensures Sound(Tiles(e, R, C, s.img), Specified(s), GoodCells(R, C))
  {
    TilesCut(e, R, C, s.img);
    forall n, p, t | 0 <= n <= 3 ensures Covered(Tiles(e, R, C, s.img), GoodCells(R, C), n, p, t) {
      TilesCovered(e, R, C, s.img, n, p, t);
    }
    forall n, p, t, v | 0 <= n <= 3 && Ready(Tiles(e, R, C, s.img), Specified(s), GoodCells(R, C), n, p, t, v)
      ensures Computes(Tiles(e, R, C, s.img), Specified(s), GoodCells(R, C), n, p, t, v)
    {
      TilesCompute(e, R, C, s, n, p, t, v);
    }
  }

  /** Every interleaving of the rows of tiles that lets all finish stores every pixel once and gives the mask of the
      sequential program. */
  method ParallelEqualsTiled<P(0, !new)>(e: Kernels<P>, R: nat, C: nat, img: Window<P>, stray: (int, int, int) -> P,
                                         ghost stale: int -> Memory<P>, ghost before: map<Cell, P>)
    returns (mask: Window<P>, ghost pixels: Stage<P>, ghost out: Stage<P>)
    requires img.buf.Valid()
    ensures CanStore(mask, 3, Image(R, C))
    ensures forall k, i, j :: pixels(k, i, j) == img.At(k, i, j)
    ensures forall k, i, j :: out(k, i, j) == mask.At(k, i, j)
    ensures AlwaysEndsAs(Tiles(e, R, C, pixels), stale, before, out)
  {
    pixels := Snapshot(img);
    ghost var s := MakeStages(e, pixels);
    mask := Tiled(e, R, C, img, stray, s);
    out := Snapshot(mask);
    TilesSound(e, R, C, s);
    AllSchedulesFill(Tiles(e, R, C, pixels), Specified(s), GoodCells(R, C), stale, before, out);
  }
}
