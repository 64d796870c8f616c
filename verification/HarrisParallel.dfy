/** The video demo's rows of Harris tiles in parallel: every interleaving gives the response of the sequential program. */
module HarrisParallel {
  import opened Buffers
  import opened Schedule
  import opened TileMachine
  import opened TileRuns
  import opened HarrisSpec
  import opened HarrisPipe
  import opened HarrisVideo

  // Nests in the file's order: gray, Ix, Iy, Ixx, Iyy, Ixy, Syy, Sxy, Sxx, det, trace, harris.

  function BoxOf(b: Bounds, n: int): Box {
    if n == 0 then b.gray else if n <= 2 then b.slopes else if n <= 5 then b.products else if n <= 8 then b.sums
    else if n <= 10 then b.forms else b.harris
  }

  /** the bodies */
  function NestCell<P>(e: Kernels<P>, rgb: Stage<P>, n: int, v: Memory<P>, i: int, j: int): P {
    if n == 0 then e.grey(rgb(0, i, j), rgb(1, i, j), rgb(2, i, j))
    else if n == 1 then Stencil(e.dx, PadImage(v, 0), i, j)
    else if n == 2 then Stencil(e.dy, PadImage(v, 0), i, j)
    else if n == 3 then e.mul(v(1, 0, i, j), v(1, 0, i, j))
    else if n == 4 then e.mul(v(2, 0, i, j), v(2, 0, i, j))
    else if n == 5 then e.mul(v(1, 0, i, j), v(2, 0, i, j))
    else if n == 6 then Stencil(e.sum, PadImage(v, 4), i, j)
    else if n == 7 then Stencil(e.sum, PadImage(v, 5), i, j)
    else if n == 8 then Stencil(e.sum, PadImage(v, 3), i, j)
    else if n == 9 then e.det(v(8, 0, i, j), v(6, 0, i, j), v(7, 0, i, j))
    else if n == 10 then e.trace(v(8, 0, i, j), v(6, 0, i, j))
    else e.respond(v(9, 0, i, j), v(10, 0, i, j))
  }

  /** Row p of tiles is _T_i0 == p - 1, column t is _T_i1 == t - 1. */
  function Tiles<P>(e: Kernels<P>, R: nat, C: nat, rgb: Stage<P>): Pipeline<P> {
    Pipeline(HarrisRows(R), Cut((C + 1) / 128 + 2, 128, -123, 2, C - 1), 1, 11,
             (n, p, t) => BoxOf(TileBounds(R, C, p - 1, t - 1), n),
             (p, t) => (16 * (p - 1), 128 * (t - 1)), 26, 138,
             (n, v, k, i, j) => NestCell(e, rgb, n, v, i, j))
  }

  /** Every nest reads only what earlier nests have stored. */
  function GoodCells(R: nat, C: nat): Good {
    (n, p, t) => BoxOf(TileBounds(R, C, p - 1, t - 1), n)
  }

  function StageOf<P>(s: Stages<P>, n: int): Stage<P> {
    if n == 0 then s.gray else if n == 1 then s.ix else if n == 2 then s.iy else if n == 3 then s.ixx
    else if n == 4 then s.iyy else if n == 5 then s.ixy else if n == 6 then s.syy else if n == 7 then s.sxy
    else if n == 8 then s.sxx else if n == 9 then s.det else if n == 10 then s.trace else s.harris
  }

  function Specified<P>(s: Stages<P>): Memory<P> {
    (n, k, i, j) => StageOf(s, n)(k, i, j)
  }

  lemma TilesCut<P>(e: Kernels<P>, R: nat, C: nat, rgb: Stage<P>)
    ensures Cuts(Tiles(e, R, C, rgb))
  {
  }

  lemma BoxFits(R: nat, C: nat, n: int, t0: int, t1: int)
    ensures TileNest(t0, t1, 0).Contains(BoxOf(TileBounds(R, C, t0, t1), n))
  {
  }

  lemma TilesCovered<P(!new)>(e: Kernels<P>, R: nat, C: nat, rgb: Stage<P>, n: int, p: int, t: int)
    requires 0 <= n <= 11
    ensures Covered(Tiles(e, R, C, rgb), GoodCells(R, C), n, p, t)
  {
    BoxFits(R, C, n, p - 1, t - 1);
  }

  /** scratchpad n holds its stage here */
  lemma Held<P(!new)>(e: Kernels<P>, R: nat, C: nat, rgb: Stage<P>, s: Stages<P>, m: int, p: int, t: int, v: Memory<P>, n: int, i: int, j: int)
    requires Ready(Tiles(e, R, C, rgb), Specified(s), GoodCells(R, C), m, p, t, v) && 0 <= n < m
    requires BoxOf(TileBounds(R, C, p - 1, t - 1), n).Has(i, j)
    ensures v(n, 0, i, j) == StageOf(s, n)(0, i, j)
  {
    assert GoodCells(R, C)(n, p, t).Has(i, j);
    assert v(n, 0, i, j) == Specified(s)(n, 0, i, j);
  }

  /** and around here */
  lemma HeldAround<P(!new)>(e: Kernels<P>, R: nat, C: nat, rgb: Stage<P>, s: Stages<P>, m: int, p: int, t: int, v: Memory<P>, n: int,
                            op: Nine<P>, i: int, j: int)
    requires Ready(Tiles(e, R, C, rgb), Specified(s), GoodCells(R, C), m, p, t, v) && 0 <= n < m
    requires BoxOf(TileBounds(R, C, p - 1, t - 1), n).Has(i - 1, j - 1) && BoxOf(TileBounds(R, C, p - 1, t - 1), n).Has(i + 1, j + 1)
    ensures Stencil(op, PadImage(v, n), i, j) == Stencil(op, StageOf(s, n), i, j)
  {
    forall x, y | i - 1 <= x <= i + 1 && j - 1 <= y <= j + 1 ensures PadImage(v, n)(0, x, y) == StageOf(s, n)(0, x, y) {
      Held(e, R, C, rgb, s, m, p, t, v, n, x, y);
    }
  }

  /** the stencil nests */
  lemma StencilComputes<P(!new)>(e: Kernels<P>, R: nat, C: nat, rgb: Stage<P>, s: Stages<P>, n: int, p: int, t: int, v: Memory<P>, i: int, j: int)
    requires Lawful(e, s) && n in {1, 2, 6, 7, 8} && Ready(Tiles(e, R, C, rgb), Specified(s), GoodCells(R, C), n, p, t, v)
    requires BoxOf(TileBounds(R, C, p - 1, t - 1), n).Has(i, j)
    ensures NestCell(e, rgb, n, v, i, j) == StageOf(s, n)(0, i, j)
  {
    TileCovers(R, C, p - 1, t - 1);
    var from := if n <= 2 then 0 else if n == 6 then 4 else if n == 7 then 5 else 3;
    HeldAround(e, R, C, rgb, s, n, p, t, v, from, if n == 1 then e.dx else if n == 2 then e.dy else e.sum, i, j);
  }

  /** the others, which read the cell they store */
  lemma PointComputes<P(!new)>(e: Kernels<P>, R: nat, C: nat, rgb: Stage<P>, s: Stages<P>, n: int, p: int, t: int, v: Memory<P>, i: int, j: int)
    requires Lawful(e, s) && n in {3, 4, 5, 9, 10, 11} && Ready(Tiles(e, R, C, rgb), Specified(s), GoodCells(R, C), n, p, t, v)
    requires BoxOf(TileBounds(R, C, p - 1, t - 1), n).Has(i, j)
    ensures NestCell(e, rgb, n, v, i, j) == StageOf(s, n)(0, i, j)
  {
    forall m | 1 <= m < n && ((n <= 5 && m <= 2) || (9 <= n <= 10 && 6 <= m <= 8) || (n == 11 && 9 <= m))
      ensures v(m, 0, i, j) == StageOf(s, m)(0, i, j)
    {
      Held(e, R, C, rgb, s, n, p, t, v, m, i, j);
    }
  }

  lemma NestComputes<P(!new)>(e: Kernels<P>, R: nat, C: nat, rgb: Stage<P>, s: Stages<P>, n: int, p: int, t: int, v: Memory<P>, i: int, j: int)
    requires Lawful(e, s) && GreyLaw(e, rgb, s.gray) && 0 <= n <= 11
    requires Ready(Tiles(e, R, C, rgb), Specified(s), GoodCells(R, C), n, p, t, v)
    requires GoodCells(R, C)(n, p, t).Has(i, j)
    ensures Tiles(e, R, C, rgb).cell(n, v, 0, i, j) == Specified(s)(n, 0, i, j)
  {
    if n in {1, 2, 6, 7, 8} {
      StencilComputes(e, R, C, rgb, s, n, p, t, v, i, j);
    } else if n == 0 {
      assert StageOf(s, n)(0, i, j) == s.gray(0, i, j) == NestCell(e, rgb, n, v, i, j);
    } else {
      PointComputes(e, R, C, rgb, s, n, p, t, v, i, j);
    }
  }

  lemma TilesCompute<P(!new)>(e: Kernels<P>, R: nat, C: nat, rgb: Stage<P>, s: Stages<P>, n: int, p: int, t: int, v: Memory<P>)
    requires Lawful(e, s) && GreyLaw(e, rgb, s.gray) && 0 <= n <= 11
    requires Ready(Tiles(e, R, C, rgb), Specified(s), GoodCells(R, C), n, p, t, v)
    ensures Computes(Tiles(e, R, C, rgb), Specified(s), GoodCells(R, C), n, p, t, v)
  {
    forall i, j | GoodCells(R, C)(n, p, t).Has(i, j)
      ensures Tiles(e, R, C, rgb).cell(n, v, 0, i, j) == Specified(s)(n, 0, i, j)
    {
      NestComputes(e, R, C, rgb, s, n, p, t, v, i, j);
    }
  }

  lemma TilesSound<P(!new)>(e: Kernels<P>, R: nat, C: nat, rgb: Stage<P>, s: Stages<P>)
    requires Lawful(e, s) && GreyLaw(e, rgb, s.gray)
    ensures Sound(Tiles(e, R, C, rgb), Specified(s), GoodCells(R, C))
  {
    TilesCut(e, R, C, rgb);
    forall n, p, t | 0 <= n <= 11 ensures Covered(Tiles(e, R, C, rgb), GoodCells(R, C), n, p, t) {
      TilesCovered(e, R, C, rgb, n, p, t);
    }
    forall n, p, t, v | 0 <= n <= 11 && Ready(Tiles(e, R, C, rgb), Specified(s), GoodCells(R, C), n, p, t, v)
      ensures Computes(Tiles(e, R, C, rgb), Specified(s), GoodCells(R, C), n, p, t, v)
    {
      TilesCompute(e, R, C, rgb, s, n, p, t, v);
    }
  }

  lemma TilesAlwaysEnd<P(!new)>(e: Kernels<P>, R: nat, C: nat, rgb: Stage<P>, s: Stages<P>, stale: int -> Memory<P>,
                                before: map<Cell, P>, out: Stage<P>)
    requires Lawful(e, s) && GreyLaw(e, rgb, s.gray)
    requires forall i, j :: Image(R, C).Has(i, j) ==> out(0, i, j) == s.harris(0, i, j)
    ensures AlwaysEndsAs(Tiles(e, R, C, rgb), stale, before, out)
  {
    TilesSound(e, R, C, rgb, s);
    forall c | InImage(Tiles(e, R, C, rgb), c) ensures out(c.0, c.1, c.2) == Specified(s)(11, c.0, c.1, c.2) {
      assert Image(R, C).Has(c.1, c.2) && c.0 == 0;
      assert StageOf(s, 11) == s.harris;
    }
    AllSchedulesFill(Tiles(e, R, C, rgb), Specified(s), GoodCells(R, C), stale, before, out);
  }

  /** Every interleaving of the rows of tiles that lets all finish stores every response once, leaves the border alone,
      and gives what the sequential program gives. */
  method ParallelEqualsTiled<P(0, !new)>(e: Kernels<P>, R: nat, C: nat, rgb: Window<P>, harris: Window<P>, stray: (int, int, int) -> P,
                                         ghost stale: int -> Memory<P>, ghost before: map<Cell, P>)
    returns (ghost pixels: Stage<P>, ghost out: Stage<P>)
    requires rgb.buf.Valid() && CanStore(harris, 1, Whole(R, C)) && harris.buf.data != rgb.buf.data
    modifies harris.buf.data
    ensures forall k, i, j :: pixels(k, i, j) == rgb.At(k, i, j)
    ensures forall k, i, j :: out(k, i, j) == harris.At(k, i, j)
    ensures AlwaysEndsAs(Tiles(e, R, C, pixels), stale, before, out)
  {
    pixels := Snapshot(rgb);
    ghost var gray := MakeGrey(e, pixels);
    ghost var s := MakeStages(e, gray);
    Tiled(e, R, C, rgb, harris, stray, pixels, s);
    out := Snapshot(harris);
    TilesAlwaysEnd(e, R, C, pixels, s, stale, before, out);
  }
}
