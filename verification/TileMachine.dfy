/** A tiled pipeline as parallel processes. A row of tiles runs its tiles in order, each tile its loop nests, over private
    scratchpads that keep what earlier tiles left; only its last nest stores into the shared output. */
module TileMachine {
  import opened Buffers
  import opened Schedule

  /** lo .. hi cut into n pieces: piece p is size p + off .. size p + off + size - 1 */
  datatype Cut = Cut(n: nat, size: nat, off: int, lo: int, hi: int) {
    predicate Complete() {
      size >= 1 && off <= lo && hi < size * n + off
    }

    predicate Has(p: int, x: int) {
      lo <= x <= hi && size * p + off <= x <= size * p + off + size - 1
    }

    function Of(x: int): int {
      if size >= 1 then (x - off) / size else 0
    }
  }

  lemma QuotientIs(a: int, h: nat, q: int)
    requires h >= 1 && h * q <= a <= h * q + h - 1
    ensures a / h == q
  {
    var p, r := a / h, a % h;
    assert a == p * h + r;
    if p < q {
      QuotientUnique(h, p, r, q, a - q * h);
    } else if q < p {
      QuotientUnique(h, q, a - q * h, p, r);
    }
  }

  lemma TimesMonotone(h: nat, p: int, q: int)
    requires p <= q
    ensures h * p <= h * q
  {
  }

  /** Pieces do not overlap. */
  lemma PieceIs(c: Cut, p: int, x: int)
    requires c.size >= 1 && c.Has(p, x)
    ensures c.Of(x) == p
  {
    QuotientIs(x - c.off, c.size, p);
  }

  /** Pieces cover the whole. */
  lemma PieceOf(c: Cut, x: int)
    requires c.Complete() && c.lo <= x <= c.hi
    ensures 0 <= c.Of(x) < c.n && c.Has(c.Of(x), x)
  {
    var a, h := x - c.off, c.size;
    var q, r := a / h, a % h;
    assert a == h * q + r && 0 <= r < h;
    if q >= c.n {
      TimesMonotone(h, c.n, q);
    }
    if q < 0 {
      TimesMonotone(h, q, -1);
    }
  }

  /** What scratchpads hold, by scratchpad, plane, row and column. Cells outside a scratchpad's rows are never stored,
      so they keep the arbitrary value they start with. */
  type Memory<!P> = (int, int, int, int) -> P

  function Put<P>(mem: Memory<P>, n: int, k: int, u: int, v: int, x: P): Memory<P> {
    (n', k', u', v') => if n' == n && k' == k && u' == u && v' == v then x else mem(n', k', u', v')
  }

  /** Scratchpads whose first cell is the image's (r0, c0), in image coordinates. */
  function View<P>(mem: Memory<P>, r0: int, c0: int): Memory<P> {
    (n, k, i, j) => mem(n, k, i - r0, j - c0)
  }

  /** scratchpad n as an image */
  function PadImage<P>(v: Memory<P>, n: int): Stage<P> {
    (k, i, j) => v(n, k, i, j)
  }

  /** Nests 0 .. last - 1 each fill the scratchpad of their number, nest `last` the output. In the tile of piece p of
      the rows and piece t of the columns, nest n visits box(n, p, t) on every plane and stores
      cell(n, scratchpads, k, i, j). A scratchpad has height x width cells, the first of them at `origin` of the tile.
      The shared input is part of `cell`. */
  datatype Pipeline<!P> = Pipeline(
    rows: Cut, cols: Cut, planes: nat, last: nat,
    box: (int, int, int) -> Box,
    origin: (int, int) -> (int, int), height: nat, width: nat,
    cell: (int, Memory<P>, int, int, int) -> P)

  /** where a row of tiles is: tile, nest, the nest's loop counters, and its scratchpads */
  datatype Local<!P> = Local(t: nat, nest: nat, k: nat, i: int, j: int, pads: Memory<P>)

  function Enter<P>(pl: Pipeline<P>, p: int, t: nat, nest: nat, pads: Memory<P>): Local<P> {
    var b := pl.box(nest, p, t);
    Local(t, nest, 0, b.r0, b.c0, pads)
  }

  function Pads<P>(pl: Pipeline<P>, p: int, l: Local<P>): Memory<P> {
    var o := pl.origin(p, l.t);
    View(l.pads, o.0, o.1)
  }

  /** the body of nest l.nest at (l.k, l.i, l.j) */
  function Body<P>(pl: Pipeline<P>, p: int, l: Local<P>): (Local<P>, Action<P>) {
    var x := pl.cell(l.nest, Pads(pl, p, l), l.k, l.i, l.j);
    if l.nest == pl.last then (l.(j := l.j + 1), Store((l.k, l.i, l.j), x))
    else
      var o := pl.origin(p, l.t);
      (l.(j := l.j + 1, pads := Put(l.pads, l.nest, l.k, l.i - o.0, l.j - o.1, x)), Private)
  }

  /** One step of C's nested loops: the body, or a counter's increment and the inner ones' new start. */
  function TileStep<P>(pl: Pipeline<P>, p: int, l: Local<P>): Option<(Local<P>, Action<P>)> {
    if l.t >= pl.cols.n then None
    else if l.nest > pl.last then Some((Enter(pl, p, l.t + 1, 0, l.pads), Private))
    else
      var b := pl.box(l.nest, p, l.t);
      if l.k >= pl.planes then Some((Enter(pl, p, l.t, l.nest + 1, l.pads), Private))
      else if b.Has(l.i, l.j) then Some(Body(pl, p, l))
      else if b.r0 <= l.i <= b.r1 then Some((l.(i := l.i + 1, j := b.c0), Private))
      else Some((l.(k := l.k + 1, i := b.r0, j := b.c0), Private))
  }

  /** `stale` is what each row of tiles finds in its scratchpads. */
  function TilesOf<P>(pl: Pipeline<P>, stale: int -> Memory<P>): Machine<Local<P>, P> {
    Machine(pl.rows.n, p => Enter(pl, p, 0, 0, stale(p)), (p, l) => TileStep(pl, p, l))
  }

  function After<P>(pl: Pipeline<P>, stale: int -> Memory<P>, before: map<Cell, P>, schedule: seq<nat>): (r: State<Local<P>, P>)
    ensures |r.locals| == pl.rows.n
  {
    Run(TilesOf(pl, stale), Start(TilesOf(pl, stale), before), schedule)
  }

  /** the output cells */
  predicate InImage<P>(pl: Pipeline<P>, c: Cell) {
    0 <= c.0 < pl.planes && pl.rows.lo <= c.1 <= pl.rows.hi && pl.cols.lo <= c.2 <= pl.cols.hi
  }

  /** The output nests' boxes are the pieces, so each output cell is in one tile. */
  ghost predicate Cuts<P>(pl: Pipeline<P>) {
    && pl.rows.Complete() && pl.cols.Complete()
    && forall p, t, i, j {:trigger pl.box(pl.last, p, t).Has(i, j)} :: 0 <= p < pl.rows.n && 0 <= t < pl.cols.n ==>
         (pl.box(pl.last, p, t).Has(i, j) <==> pl.rows.Has(p, i) && pl.cols.Has(t, j))
  }

  function Owner<P>(pl: Pipeline<P>): Cell -> int {
    c => if InImage(pl, c) then pl.rows.Of(c.1) else -1
  }

  /** Rows of tiles store disjoint cells. */
  lemma TilesOwned<P(!new)>(pl: Pipeline<P>, stale: int -> Memory<P>)
    requires Cuts(pl)
    ensures Owned(TilesOf(pl, stale), Owner(pl))
  {
    var m := TilesOf(pl, stale);
    forall p: nat, l | p < m.n && m.step(p, l).Some? && m.step(p, l).value.1.Store?
      ensures Owner(pl)(m.step(p, l).value.1.cell) == p
    {
      assert pl.box(pl.last, p, l.t).Has(l.i, l.j);
      PieceIs(pl.rows, p, l.i);
    }
  }

  /** All interleavings that let every row of tiles finish agree, on output and scratchpads, whatever the nests compute. */
  lemma TilesScheduleIndependent<P(!new)>(pl: Pipeline<P>, stale: int -> Memory<P>, before: map<Cell, P>, s: seq<nat>, t: seq<nat>)
    requires Cuts(pl)
    requires Finished(TilesOf(pl, stale), After(pl, stale, before, s)) && Finished(TilesOf(pl, stale), After(pl, stale, before, t))
    ensures After(pl, stale, before, s) == After(pl, stale, before, t)
  {
    TilesOwned(pl, stale);
    ScheduleIndependent(TilesOf(pl, stale), Owner(pl), Start(TilesOf(pl, stale), before), s, t);
  }

  // What one row of tiles does.

  /** d comes before c in a nest. */
  predicate Before(d: Cell, c: Cell) {
    d.0 < c.0 || (d.0 == c.0 && (d.1 < c.1 || (d.1 == c.1 && d.2 < c.2)))
  }

  predicate InNest<P>(pl: Pipeline<P>, p: int, l: Local<P>) {
    l.t < pl.cols.n && l.nest <= pl.last ==> pl.box(l.nest, p, l.t).r0 <= l.i && pl.box(l.nest, p, l.t).c0 <= l.j
  }

  predicate Behind<P>(l: Local<P>, nest: int, c: Cell) {
    l.nest > nest || (l.nest == nest && Before(c, (l.k, l.i, l.j)))
  }

  /** Process p has stored its output cell c. */
  predicate Done<P>(pl: Pipeline<P>, l: Local<P>, c: Cell) {
    pl.cols.Of(c.2) < l.t || (pl.cols.Of(c.2) == l.t && Behind(l, pl.last, c))
  }

  predicate Owns<P>(pl: Pipeline<P>, p: int, c: Cell) {
    0 <= c.0 < pl.planes && pl.rows.Has(p, c.1) && pl.cols.lo <= c.2 <= pl.cols.hi
  }

  /** A step passes exactly the cell that its body visits. */
  lemma BehindStep<P>(pl: Pipeline<P>, p: int, l: Local<P>, nest: int, c: Cell)
    requires l.t < pl.cols.n && InNest(pl, p, l) && 0 <= nest <= pl.last && 0 <= c.0 < pl.planes && pl.box(nest, p, l.t).Has(c.1, c.2)
    ensures var l' := TileStep(pl, p, l).value.0;
            InNest(pl, p, l') && (l'.t == l.t ==> (Behind(l', nest, c) <==> Behind(l, nest, c) || (l.nest == nest && c == (l.k, l.i, l.j))))
  {
  }

  /** A step stores c exactly when c becomes done. */
  lemma DoneStep<P>(pl: Pipeline<P>, p: int, l: Local<P>, c: Cell)
    requires Cuts(pl) && 0 <= p < pl.rows.n && l.t < pl.cols.n && InNest(pl, p, l) && Owns(pl, p, c)
    ensures var (l', a) := TileStep(pl, p, l).value;
            && InNest(pl, p, l') && l'.t <= pl.cols.n
            && (Done(pl, l', c) <==> Done(pl, l, c) || (a.Store? && a.cell == c))
            && (a.Store? && a.cell == c ==> !Done(pl, l, c))
  {
    PieceOf(pl.cols, c.2);
    var t := pl.cols.Of(c.2);
    assert pl.box(pl.last, p, t).Has(c.1, c.2);
    if t == l.t {
      BehindStep(pl, p, l, pl.last, c);
    } else if pl.box(pl.last, p, l.t).Has(c.1, c.2) {
      PieceIs(pl.cols, l.t, c.2);
    }
  }

  // The rows of tiles of the pipelines, row 0 being the first tile row of each loop.

  /** harris_polymage.cpp of the video demo: rows 16 T0 + 5 .. 16 T0 + 20 */
  function HarrisRows(R: nat): Cut { Cut((R + 1) / 16 + 2, 16, -11, 2, R - 1) }

  /** unsharp_mask_polymage.cpp: rows 8 T1 .. 8 T1 + 7 */
  function UnsharpRows(R: nat): Cut { Cut((R + 1) / 8 + 1, 8, 0, 2, R + 1) }

  /** bilateral_polymage.cpp of the video demo: rows 64 T1 + 16 .. 64 T1 + 79 */
  function BilateralRows(R: nat): Cut
    requires R >= 57
  {
    Cut((R - 9) / 64 + 2, 64, -48, 24, R - 33)
  }

  /** camera_pipe_polymage.cpp: rows 64 T1 + 8 .. 64 T1 + 71 */
  function CameraRows(): Cut { Cut(32, 64, -56, 12, 1931) }

  lemma PipelineRowsComplete(R: nat)
    ensures HarrisRows(R).Complete() && UnsharpRows(R).Complete() && CameraRows().Complete()
    ensures R >= 57 ==> BilateralRows(R).Complete()
  {
  }
}
