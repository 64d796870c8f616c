/** C arrays as the pipelines use them: `float a[planes][rows][cols]` scratchpads and
    malloc'd buffers that are indexed by the same row-major formula. */
module Buffers {

  lemma RowMajorBounds(planes: nat, rows: nat, cols: nat, k: int, u: int, v: int)
    requires 0 <= k < planes && 0 <= u < rows && 0 <= v < cols
    ensures 0 <= (k * rows + u) * cols + v < planes * rows * cols
  {
    assert k * rows + u <= planes * rows - 1 by {
      assert k * rows <= (planes - 1) * rows;
    }
    assert (k * rows + u) * cols <= (planes * rows - 1) * cols;
  }

  lemma QuotientUnique(d: nat, q: int, r: int, q': int, r': int)
    requires 0 <= r < d && 0 <= r' < d && q < q'
    ensures q * d + r != q' * d + r'
  {
    assert (q + 1) * d <= q' * d;
  }

  lemma RowMajorInjective(rows: nat, cols: nat, k: int, u: int, v: int, k': int, u': int, v': int)
    requires 0 <= u < rows && 0 <= v < cols && 0 <= u' < rows && 0 <= v' < cols
    requires k != k' || u != u' || v != v'
    ensures (k * rows + u) * cols + v != (k' * rows + u') * cols + v'
  {
    if k < k' {
      QuotientUnique(rows, k, u, k', u');
    } else if k' < k {
      QuotientUnique(rows, k', u', k, u);
    }
    var q, q' := k * rows + u, k' * rows + u';
    if q < q' {
      QuotientUnique(cols, q, v, q', v');
    } else if q' < q {
      QuotientUnique(cols, q', v', q, v);
    }
  }

  class Buffer<P(0)> {
    const planes: nat
    const rows: nat
    const cols: nat
    const data: array<P>
    /** What an access outside a row yields: any value at all, so nothing proved may depend on it. */
    const stray: (int, int, int) -> P

    constructor (planes: nat, rows: nat, cols: nat, stray: (int, int, int) -> P)
      ensures Valid() && fresh(data)
      ensures this.planes == planes && this.rows == rows && this.cols == cols && this.stray == stray
    {
      this.planes, this.rows, this.cols, this.stray := planes, rows, cols, stray;
      data := new P[planes * rows * cols];
    }

    ghost predicate Valid() {
      data.Length == planes * rows * cols
    }

    predicate Has(k: int, u: int, v: int) {
      0 <= k < planes && 0 <= u < rows && 0 <= v < cols
    }

    function Cell(k: int, u: int, v: int): P
      requires Valid()
      reads data
    {
      if Has(k, u, v) then
        RowMajorBounds(planes, rows, cols, k, u, v);
        data[(k * rows + u) * cols + v]
      else
        stray(k, u, v)
    }

    method Store(k: int, u: int, v: int, x: P)
      requires Valid() && Has(k, u, v)
      modifies data
      ensures Cell(k, u, v) == x
      ensures forall k', u', v' :: k' != k || u' != u || v' != v ==> Cell(k', u', v') == old(Cell(k', u', v'))
    {
      RowMajorBounds(planes, rows, cols, k, u, v);
      data[(k * rows + u) * cols + v] := x;
      forall k', u', v' | Has(k', u', v') && (k' != k || u' != u || v' != v)
        ensures Cell(k', u', v') == old(Cell(k', u', v'))
      {
        RowMajorBounds(planes, rows, cols, k', u', v');
        RowMajorInjective(rows, cols, k', u', v', k, u, v);
      }
    }
  }

  /** A buffer addressed in image coordinates: `a[i - r0][j - c0]`. A scratchpad's origin moves with
      the tile; a full-size buffer's origin is the first row and column its stage defines. */
  datatype Window<!P(0)> = Window(buf: Buffer<P>, r0: int, c0: int) {
    predicate Has(k: int, i: int, j: int) {
      buf.Has(k, i - r0, j - c0)
    }

    function At(k: int, i: int, j: int): P
      requires buf.Valid()
      reads buf.data
    {
      buf.Cell(k, i - r0, j - c0)
    }
  }

  /** Rows r0..r1 and columns c0..c1, ends included, as the generated loops count. */
  datatype Box = Box(r0: int, r1: int, c0: int, c1: int) {
    predicate Has(i: int, j: int) {
      r0 <= i <= r1 && c0 <= j <= c1
    }

    predicate Contains(b: Box) {
      b.r0 <= b.r1 && b.c0 <= b.c1 ==> r0 <= b.r0 && b.r1 <= r1 && c0 <= b.c0 && b.c1 <= c1
    }

    function Grow(up: int, down: int, left: int, right: int): Box {
      Box(r0 - up, r1 + down, c0 - left, c1 + right)
    }
  }

  /** A stage as a function of plane, row and column. */
  type Stage<!P> = (int, int, int) -> P

  /** The first n planes of w hold the stage f throughout the box. */
  ghost predicate Holds<P(0)>(w: Window<P>, n: nat, box: Box, f: Stage<P>)
    requires w.buf.Valid()
    reads w.buf.data
  {
    forall k, i, j {:trigger w.At(k, i, j)} :: 0 <= k < n && box.Has(i, j) ==> w.At(k, i, j) == f(k, i, j)
  }

  ghost predicate Known<P(0)>(w: Window<P>, n: nat, box: Box, f: Stage<P>)
    reads w.buf.data
  {
    w.buf.Valid() && Holds(w, n, box, f)
  }

  ghost predicate CanStore<P(0)>(w: Window<P>, n: nat, box: Box) {
    w.buf.Valid() && forall k, i, j :: 0 <= k < n && box.Has(i, j) ==> w.Has(k, i, j)
  }

  predicate Shape<P(0)>(buf: Buffer<P>, planes: nat, rows: nat, cols: nat) {
    buf.planes == planes && buf.rows == rows && buf.cols == cols
  }

  /** w has exactly the cells of the box. */
  ghost predicate Sized<P(0)>(w: Window<P>, planes: nat, box: Box) {
    && w.buf.Valid() && w.buf.planes == planes && w.r0 == box.r0 && w.c0 == box.c0
    && w.buf.rows == box.r1 - box.r0 + 1 && w.buf.cols == box.c1 - box.c0 + 1
  }

  lemma SizedCanStore<P(0)>(w: Window<P>, planes: nat, box: Box, nest: Box)
    requires Sized(w, planes, box) && box.Contains(nest)
    ensures CanStore(w, planes, nest)
  {
  }

  method NewWindow<P(0)>(planes: nat, box: Box, stray: (int, int, int) -> P) returns (w: Window<P>)
    requires box.r0 <= box.r1 + 1 && box.c0 <= box.c1 + 1
    ensures Sized(w, planes, box) && CanStore(w, planes, box) && fresh(w.buf.data)
  {
    var buf := new Buffer(planes, box.r1 - box.r0 + 1, box.c1 - box.c0 + 1, stray);
    w := Window(buf, box.r0, box.c0);
  }

  function CellOf<P(0)>(cells: seq<P>, w: Window<P>, k: int, i: int, j: int): P {
    var n := (k * w.buf.rows + i - w.r0) * w.buf.cols + j - w.c0;
    if w.Has(k, i, j) && 0 <= n < |cells| then cells[n] else w.buf.stray(k, i - w.r0, j - w.c0)
  }

  lemma CellOfAt<P(0)>(w: Window<P>, k: int, i: int, j: int)
    requires w.buf.Valid()
    ensures CellOf(w.buf.data[..], w, k, i, j) == w.At(k, i, j)
  {
    if w.Has(k, i, j) {
      RowMajorBounds(w.buf.planes, w.buf.rows, w.buf.cols, k, i - w.r0, j - w.c0);
    }
  }

  /** what w holds now, as a function of the coordinates */
  lemma Snapshot<P(0, !new)>(w: Window<P>) returns (f: (int, int, int) -> P)
    requires w.buf.Valid()
    ensures forall k, i, j :: f(k, i, j) == w.At(k, i, j)
  {
    var cells := w.buf.data[..];
    f := (k, i, j) => CellOf(cells, w, k, i, j);
    forall k, i, j ensures f(k, i, j) == w.At(k, i, j) {
      CellOfAt(w, k, i, j);
    }
  }

  function Min(a: int, b: int): int { if a < b then a else b }

  function Max(a: int, b: int): int { if a > b then a else b }
}

/** The loop nests of the generated code. */
module Nests {
  import opened Buffers

  /** `for (n = lo; n <= hi; n += step)`. A loop that steps by 2 or 8 and stores at n / 2 or n / 8 is
      written over the stored coordinate instead, both bounds divided. */
  datatype Loop = Loop(lo: int, hi: int, step: nat) {
    predicate Ok() {
      step == 1 || step == 2
    }

    predicate Visits(n: int) {
      lo <= n <= hi && (step == 2 ==> n % 2 == lo % 2)
    }
  }

  function Each(lo: int, hi: int): Loop { Loop(lo, hi, 1) }

  function By2(lo: int, hi: int): Loop { Loop(lo, hi, 2) }

  /** One step passes over no visited value. */
  lemma Advance(l: Loop, n: int)
    requires l.Ok() && l.Visits(n)
    ensures n + l.step <= l.hi ==> l.Visits(n + l.step)
    ensures forall m :: l.Visits(m) && m < n + l.step ==> m <= n
  {
  }

  /** The innermost loop: one row of plane k. */
  method FillRow<P(0)>(w: Window<P>, k: int, i: int, cl: Loop, f: (int, int, int) ~> P,
                       ghost good: Box, ghost spec: Stage<P>)
    requires w.buf.Valid() && cl.Ok()
    requires forall j :: cl.Visits(j) ==> w.Has(k, i, j)
    requires forall j :: cl.Visits(j) ==> f.requires(k, i, j) && w.buf.data !in f.reads(k, i, j)
    requires forall j :: cl.Visits(j) && good.Has(i, j) ==> f(k, i, j) == spec(k, i, j)
    modifies w.buf.data
    ensures forall j :: cl.Visits(j) && good.Has(i, j) ==> w.At(k, i, j) == spec(k, i, j)
    ensures forall k', i', j :: !(k' == k && i' == i && cl.Visits(j)) ==> w.At(k', i', j) == old(w.At(k', i', j))
  {
    var j := cl.lo;
    while j <= cl.hi
      invariant j <= cl.hi ==> cl.Visits(j)
      invariant forall j' :: cl.Visits(j') ==> f.requires(k, i, j') && w.buf.data !in f.reads(k, i, j')
      invariant forall j' :: cl.Visits(j') && good.Has(i, j') ==> f(k, i, j') == spec(k, i, j')
      invariant forall j' :: cl.Visits(j') && j' < j && good.Has(i, j') ==> w.At(k, i, j') == spec(k, i, j')
      invariant forall k', i', j' ::
                  !(k' == k && i' == i && cl.Visits(j') && j' < j) ==> w.At(k', i', j') == old(w.At(k', i', j'))
    {
      Advance(cl, j);
      assert w.Has(k, i, j);
      w.buf.Store(k, i - w.r0, j - w.c0, f(k, i, j));
      j := j + cl.step;
    }
  }

  /** The nest of one plane. `f` is the stored expression, read from live memory. On the stored cells of `good`
      it has to be the stage `spec`; what the nest leaves on its other cells, computed from whatever the
      over-wide reads found there, is not said. */
  method FillPlane<P(0)>(w: Window<P>, k: int, rl: Loop, cl: Loop, f: (int, int, int) ~> P, ghost good: Box, ghost spec: Stage<P>)
    requires w.buf.Valid() && rl.Ok() && cl.Ok()
    requires forall i, j :: rl.Visits(i) && cl.Visits(j) ==> w.Has(k, i, j)
    requires forall i, j :: rl.Visits(i) && cl.Visits(j) ==> f.requires(k, i, j) && w.buf.data !in f.reads(k, i, j)
    requires forall i, j :: rl.Visits(i) && cl.Visits(j) && good.Has(i, j) ==> f(k, i, j) == spec(k, i, j)
    modifies w.buf.data
    ensures forall i, j {:trigger w.At(k, i, j)} ::
              rl.Visits(i) && cl.Visits(j) && good.Has(i, j) ==> w.At(k, i, j) == spec(k, i, j)
    ensures forall k', i, j {:trigger w.At(k', i, j)} ::
              !(k' == k && rl.Visits(i) && cl.Visits(j)) ==> w.At(k', i, j) == old(w.At(k', i, j))
  {
    var i := rl.lo;
    while i <= rl.hi
      invariant i <= rl.hi ==> rl.Visits(i)
      invariant forall i', j {:trigger w.At(k, i', j)} ::
                  rl.Visits(i') && i' < i && cl.Visits(j) && good.Has(i', j) ==> w.At(k, i', j) == spec(k, i', j)
      invariant forall k', i', j {:trigger w.At(k', i', j)} ::
                  !(k' == k && rl.Visits(i') && i' < i && cl.Visits(j)) ==> w.At(k', i', j) == old(w.At(k', i', j))
    {
      Advance(rl, i);
      FillRow(w, k, i, cl, f, good, spec);
      i := i + rl.step;
    }
  }

  /** The nest of planes 0 .. n - 1. */
  method Fill<P(0)>(w: Window<P>, n: nat, rl: Loop, cl: Loop, f: (int, int, int) ~> P, ghost good: Box, ghost spec: Stage<P>)
    requires w.buf.Valid() && rl.Ok() && cl.Ok()
    requires forall k, i, j :: 0 <= k < n && rl.Visits(i) && cl.Visits(j) ==> w.Has(k, i, j)
    requires forall k, i, j :: 0 <= k < n && rl.Visits(i) && cl.Visits(j) ==>
                                 f.requires(k, i, j) && w.buf.data !in f.reads(k, i, j)
    requires forall k, i, j :: 0 <= k < n && rl.Visits(i) && cl.Visits(j) && good.Has(i, j) ==>
                                 f(k, i, j) == spec(k, i, j)
    modifies w.buf.data
    ensures forall k, i, j {:trigger w.At(k, i, j)} ::
              0 <= k < n && rl.Visits(i) && cl.Visits(j) && good.Has(i, j) ==> w.At(k, i, j) == spec(k, i, j)
    ensures forall k, i, j {:trigger w.At(k, i, j)} ::
              !(0 <= k < n && rl.Visits(i) && cl.Visits(j)) ==> w.At(k, i, j) == old(w.At(k, i, j))
  {
    var k := 0;
    while k < n
      invariant 0 <= k <= n
      invariant forall k', i, j {:trigger w.At(k', i, j)} ::
                  0 <= k' < k && rl.Visits(i) && cl.Visits(j) && good.Has(i, j) ==> w.At(k', i, j) == spec(k', i, j)
      invariant forall k', i, j {:trigger w.At(k', i, j)} ::
                  !(0 <= k' < k && rl.Visits(i) && cl.Visits(j)) ==> w.At(k', i, j) == old(w.At(k', i, j))
    {
      FillPlane(w, k, rl, cl, f, good, spec);
      k := k + 1;
    }
  }

  /** A nest that visits a whole box. */
  method FillBox<P(0)>(w: Window<P>, n: nat, box: Box, f: (int, int, int) ~> P,
                       ghost good: Box, ghost spec: Stage<P>)
    requires w.buf.Valid()
    requires forall k, i, j :: 0 <= k < n && box.Has(i, j) ==> w.Has(k, i, j)
    requires forall k, i, j :: 0 <= k < n && box.Has(i, j) ==> f.requires(k, i, j) && w.buf.data !in f.reads(k, i, j)
    requires forall k, i, j :: 0 <= k < n && box.Has(i, j) && good.Has(i, j) ==> f(k, i, j) == spec(k, i, j)
    modifies w.buf.data
    ensures forall k, i, j {:trigger w.At(k, i, j)} ::
              0 <= k < n && box.Has(i, j) && good.Has(i, j) ==> w.At(k, i, j) == spec(k, i, j)
    ensures forall k, i, j {:trigger w.At(k, i, j)} ::
              !(0 <= k < n && box.Has(i, j)) ==> w.At(k, i, j) == old(w.At(k, i, j))
  {
    Fill(w, n, Each(box.r0, box.r1), Each(box.c0, box.c1), f, good, spec);
  }
}
