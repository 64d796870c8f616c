/** However the rows of tiles interleave, the output is the stage that the nests are meant to compute. */
module TileRuns {
  import opened Buffers
  import opened Schedule
  import opened TileMachine

  /** Where each nest's stage is right; it may store more than that. */
  type Good = (int, int, int) -> Box

  /** In tile (p, t), memory v holds the stages of the nests before nest m. */
  ghost predicate Ready<P(!new)>(pl: Pipeline<P>, spec: Memory<P>, good: Good, m: int, p: int, t: int, v: Memory<P>) {
    forall n, k, i, j {:trigger v(n, k, i, j)} ::
      0 <= n < m && 0 <= k < pl.planes && good(n, p, t).Has(i, j) ==> v(n, k, i, j) == spec(n, k, i, j)
  }

  /** Then nest m computes its stage. */
  ghost predicate Computes<P(!new)>(pl: Pipeline<P>, spec: Memory<P>, good: Good, m: int, p: int, t: int, v: Memory<P>) {
    forall k, i, j {:trigger pl.cell(m, v, k, i, j)} ::
      0 <= k < pl.planes && good(m, p, t).Has(i, j) ==> pl.cell(m, v, k, i, j) == spec(m, k, i, j)
  }

  /** A nest visits its good cells, inside its scratchpad; the last nest's cells are all good. */
  ghost predicate Covered<P(!new)>(pl: Pipeline<P>, good: Good, m: int, p: int, t: int) {
    && pl.box(m, p, t).Contains(good(m, p, t))
    && (m < pl.last ==>
          var o := pl.origin(p, t);
          Box(o.0, o.0 + pl.height - 1, o.1, o.1 + pl.width - 1).Contains(pl.box(m, p, t)))
    && (m == pl.last ==> good(m, p, t) == pl.box(m, p, t))
  }

  ghost predicate Sound<P(!new)>(pl: Pipeline<P>, spec: Memory<P>, good: Good) {
    && Cuts(pl)
    && (forall m, p, t {:trigger Covered(pl, good, m, p, t)} ::
          0 <= m <= pl.last && 0 <= p < pl.rows.n && 0 <= t < pl.cols.n ==> Covered(pl, good, m, p, t))
    && (forall m, p, t, v {:trigger Computes(pl, spec, good, m, p, t, v)} ::
          0 <= m <= pl.last && 0 <= p < pl.rows.n && 0 <= t < pl.cols.n && Ready(pl, spec, good, m, p, t, v) ==>
            Computes(pl, spec, good, m, p, t, v))
  }

  /** What row p's scratchpads hold: of earlier nests everything good, of the current one what is behind. */
  ghost predicate PadsRight<P(!new)>(pl: Pipeline<P>, spec: Memory<P>, good: Good, p: int, l: Local<P>, v: Memory<P>) {
    forall n, k, i, j {:trigger v(n, k, i, j)} ::
      0 <= n < pl.last && 0 <= k < pl.planes && good(n, p, l.t).Has(i, j) && Behind(l, n, (k, i, j)) ==> v(n, k, i, j) == spec(n, k, i, j)
  }

  ghost predicate RowRight<P(!new)>(pl: Pipeline<P>, spec: Memory<P>, good: Good, p: int, l: Local<P>) {
    l.t <= pl.cols.n && InNest(pl, p, l) && (l.t < pl.cols.n ==> PadsRight(pl, spec, good, p, l, Pads(pl, p, l)))
  }

  ghost predicate Untouched<P(!new)>(s: map<Cell, P>, t: map<Cell, P>, d: Cell) {
    (d in s <==> d in t) && (d in t ==> s[d] == t[d])
  }

  /** Process p's output so far: its done cells hold the last stage, the others what they held before. */
  ghost predicate OutputRight<P(!new)>(pl: Pipeline<P>, spec: Memory<P>, p: int, l: Local<P>, shared: map<Cell, P>, before: map<Cell, P>) {
    forall c {:trigger Owns(pl, p, c)} :: Owns(pl, p, c) ==>
      if Done(pl, l, c) then c in shared && shared[c] == spec(pl.last, c.0, c.1, c.2) else Untouched(shared, before, c)
  }

  /** The body computes its stage from what the tile has stored. */
  lemma BodyRight<P(!new)>(pl: Pipeline<P>, spec: Memory<P>, good: Good, p: int, l: Local<P>)
    requires Sound(pl, spec, good) && 0 <= p < pl.rows.n && l.t < pl.cols.n && l.nest <= pl.last
    requires RowRight(pl, spec, good, p, l) && l.k < pl.planes && good(l.nest, p, l.t).Has(l.i, l.j)
    ensures pl.cell(l.nest, Pads(pl, p, l), l.k, l.i, l.j) == spec(l.nest, l.k, l.i, l.j)
  {
    var v := Pads(pl, p, l);
    assert Ready(pl, spec, good, l.nest, p, l.t, v);
    assert Computes(pl, spec, good, l.nest, p, l.t, v);
  }

  lemma StoredRight<P(!new)>(pl: Pipeline<P>, spec: Memory<P>, good: Good, p: int, l: Local<P>)
    requires Sound(pl, spec, good) && 0 <= p < pl.rows.n && RowRight(pl, spec, good, p, l) && l.t < pl.cols.n
    ensures var a := TileStep(pl, p, l).value.1;
            a.Store? ==> a.value == spec(pl.last, a.cell.0, a.cell.1, a.cell.2)
  {
    if TileStep(pl, p, l).value.1.Store? {
      assert Covered(pl, good, pl.last, p, l.t);
      BodyRight(pl, spec, good, p, l);
    }
  }

  /** A store into a scratchpad, seen in image coordinates. */
  lemma PadStored<P(!new)>(pl: Pipeline<P>, p: int, l: Local<P>, l': Local<P>, n: int, k: int, i: int, j: int)
    requires l.t < pl.cols.n && l.nest < pl.last && l.k < pl.planes && pl.box(l.nest, p, l.t).Has(l.i, l.j)
    requires l' == Body(pl, p, l).0
    ensures Pads(pl, p, l')(n, k, i, j) ==
            if n == l.nest && k == l.k && i == l.i && j == l.j then pl.cell(l.nest, Pads(pl, p, l), l.k, l.i, l.j) else Pads(pl, p, l)(n, k, i, j)
  {
  }

  lemma PadsStep<P(!new)>(pl: Pipeline<P>, spec: Memory<P>, good: Good, p: int, l: Local<P>)
    requires Sound(pl, spec, good) && 0 <= p < pl.rows.n && RowRight(pl, spec, good, p, l) && l.t < pl.cols.n
    ensures RowRight(pl, spec, good, p, TileStep(pl, p, l).value.0)
  {
    var l' := TileStep(pl, p, l).value.0;
    var v, v' := Pads(pl, p, l), Pads(pl, p, l');
    if l'.t < pl.cols.n {
      forall n, k, i, j | 0 <= n < pl.last && 0 <= k < pl.planes && good(n, p, l'.t).Has(i, j) && Behind(l', n, (k, i, j))
        ensures v'(n, k, i, j) == spec(n, k, i, j)
      {
        assert Covered(pl, good, n, p, l'.t);
        if l'.t == l.t {
          BehindStep(pl, p, l, n, (k, i, j));
          if l.nest < pl.last && l.k < pl.planes && pl.box(l.nest, p, l.t).Has(l.i, l.j) {
            PadStored(pl, p, l, l', n, k, i, j);
            if n == l.nest && (k, i, j) == (l.k, l.i, l.j) {
              BodyRight(pl, spec, good, p, l);
            }
          }
        }
      }
    }
  }

  lemma OutputStep<P(!new)>(pl: Pipeline<P>, spec: Memory<P>, good: Good, p: int, l: Local<P>, shared: map<Cell, P>, before: map<Cell, P>)
    requires Sound(pl, spec, good) && 0 <= p < pl.rows.n && RowRight(pl, spec, good, p, l) && l.t < pl.cols.n
    requires OutputRight(pl, spec, p, l, shared, before)
    ensures var (l', a) := TileStep(pl, p, l).value; OutputRight(pl, spec, p, l', Apply(shared, a), before)
  {
    var (l', a) := TileStep(pl, p, l).value;
    StoredRight(pl, spec, good, p, l);
    forall c | Owns(pl, p, c)
      ensures if Done(pl, l', c) then c in Apply(shared, a) && Apply(shared, a)[c] == spec(pl.last, c.0, c.1, c.2)
              else Untouched(Apply(shared, a), before, c)
    {
      DoneStep(pl, p, l, c);
    }
  }

  lemma StartRight<P(!new)>(pl: Pipeline<P>, spec: Memory<P>, good: Good, p: int, pads: Memory<P>, before: map<Cell, P>)
    requires Sound(pl, spec, good) && 0 <= p < pl.rows.n
    ensures var l := Enter(pl, p, 0, 0, pads); RowRight(pl, spec, good, p, l) && OutputRight(pl, spec, p, l, before, before)
  {
    var l := Enter(pl, p, 0, 0, pads);
    forall n, k, i, j | l.t < pl.cols.n && 0 <= n < pl.last && 0 <= k < pl.planes && good(n, p, l.t).Has(i, j)
      ensures !Behind(l, n, (k, i, j))
    {
      assert Covered(pl, good, n, p, l.t);
    }
    forall c | Owns(pl, p, c) ensures !Done(pl, l, c) {
      PieceOf(pl.cols, c.2);
      assert pl.box(pl.last, p, pl.cols.Of(c.2)).Has(c.1, c.2);
    }
  }

  /** A row of tiles on its own, after any number of steps. */
  lemma {:induction false} AloneRight<P(!new)>(pl: Pipeline<P>, spec: Memory<P>, good: Good, stale: int -> Memory<P>, before: map<Cell, P>, p: nat, k: nat)
    requires Sound(pl, spec, good) && p < pl.rows.n
    ensures var st := Alone(TilesOf(pl, stale), Start(TilesOf(pl, stale), before), p, k);
            RowRight(pl, spec, good, p, st.locals[p]) && OutputRight(pl, spec, p, st.locals[p], st.shared, before)
  {
    if k == 0 {
      StartRight(pl, spec, good, p, stale(p), before);
    } else {
      AloneRight(pl, spec, good, stale, before, p, k - 1);
      var st := Alone(TilesOf(pl, stale), Start(TilesOf(pl, stale), before), p, k - 1);
      if st.locals[p].t < pl.cols.n {
        PadsStep(pl, spec, good, p, st.locals[p]);
        OutputStep(pl, spec, good, p, st.locals[p], st.shared, before);
      }
    }
  }

  /** At every moment of every interleaving, row p's scratchpads and output are right. */
  lemma RowKept<P(!new)>(pl: Pipeline<P>, spec: Memory<P>, good: Good, stale: int -> Memory<P>, before: map<Cell, P>, schedule: seq<nat>, p: nat)
    requires Sound(pl, spec, good) && p < pl.rows.n
    ensures var st := After(pl, stale, before, schedule);
            RowRight(pl, spec, good, p, st.locals[p]) && OutputRight(pl, spec, p, st.locals[p], st.shared, before)
  {
    var m, s := TilesOf(pl, stale), Start(TilesOf(pl, stale), before);
    TilesOwned(pl, stale);
    LooksAlone(m, Owner(pl), s, schedule, p);
    AloneRight(pl, spec, good, stale, before, p, Count(schedule, p));
    var st, alone := After(pl, stale, before, schedule), Alone(m, s, p, Count(schedule, p));
    forall c | Owns(pl, p, c)
      ensures if Done(pl, st.locals[p], c) then c in st.shared && st.shared[c] == spec(pl.last, c.0, c.1, c.2)
              else Untouched(st.shared, before, c)
    {
      PieceIs(pl.rows, p, c.1);
      assert Owner(pl)(c) == p;
    }
  }

  /** So far an output cell has been stored once if its row of tiles is past it, and not otherwise. */
  lemma {:induction false} StoredOnce<P(!new)>(pl: Pipeline<P>, spec: Memory<P>, good: Good, stale: int -> Memory<P>, before: map<Cell, P>,
                                               schedule: seq<nat>, p: nat, c: Cell)
    requires Sound(pl, spec, good) && p < pl.rows.n && Owns(pl, p, c)
    ensures Stores(TilesOf(pl, stale), Start(TilesOf(pl, stale), before), schedule, c) ==
            if Done(pl, After(pl, stale, before, schedule).locals[p], c) then 1 else 0
  {
    var m, s := TilesOf(pl, stale), Start(TilesOf(pl, stale), before);
    if schedule == [] {
      StartRight(pl, spec, good, p, stale(p), before);
      PieceOf(pl.cols, c.2);
      assert pl.box(pl.last, p, pl.cols.Of(c.2)).Has(c.1, c.2);
    } else {
      var earlier, q := schedule[..|schedule| - 1], schedule[|schedule| - 1];
      StoredOnce(pl, spec, good, stale, before, earlier, p, c);
      var st := Run(m, s, earlier);
      RowKept(pl, spec, good, stale, before, earlier, p);
      if q == p {
        if st.locals[p].t < pl.cols.n {
          DoneStep(pl, p, st.locals[p], c);
        }
      } else if q < m.n && StoresNext(m, q, st.locals[q], c) {
        TilesOwned(pl, stale);
        PieceIs(pl.rows, p, c.1);
        assert false;
      }
    }
  }

  /** The output is `out`, each of its cells stored exactly once, and no other cell has been stored. */
  ghost predicate EndsAs<P(!new)>(pl: Pipeline<P>, stale: int -> Memory<P>, before: map<Cell, P>, schedule: seq<nat>, out: Stage<P>) {
    var after := After(pl, stale, before, schedule).shared;
    forall c ::
      && (if InImage(pl, c) then c in after && after[c] == out(c.0, c.1, c.2) else Untouched(after, before, c))
      && Stores(TilesOf(pl, stale), Start(TilesOf(pl, stale), before), schedule, c) == if InImage(pl, c) then 1 else 0
  }

  /** However the rows of tiles interleave, once all are done the output is the last nest's stage. */
  lemma EveryScheduleFills<P(!new)>(pl: Pipeline<P>, spec: Memory<P>, good: Good, stale: int -> Memory<P>, before: map<Cell, P>,
                                    schedule: seq<nat>, out: Stage<P>)
    requires Sound(pl, spec, good) && Finished(TilesOf(pl, stale), After(pl, stale, before, schedule))
    requires forall c {:trigger InImage(pl, c)} :: InImage(pl, c) ==> out(c.0, c.1, c.2) == spec(pl.last, c.0, c.1, c.2)
    ensures EndsAs(pl, stale, before, schedule, out)
  {
    var m, s := TilesOf(pl, stale), Start(TilesOf(pl, stale), before);
    var after := After(pl, stale, before, schedule).shared;
    forall c
      ensures if InImage(pl, c) then c in after && after[c] == out(c.0, c.1, c.2) else Untouched(after, before, c)
      ensures Stores(m, s, schedule, c) == if InImage(pl, c) then 1 else 0
    {
      if InImage(pl, c) {
        FinishedCell(pl, spec, good, stale, before, schedule, c);
      } else {
        TilesOwned(pl, stale);
        UnownedKept(m, Owner(pl), s, schedule, c);
        UnownedNotStored(m, Owner(pl), s, schedule, c);
      }
    }
  }

  lemma FinishedCell<P(!new)>(pl: Pipeline<P>, spec: Memory<P>, good: Good, stale: int -> Memory<P>, before: map<Cell, P>, schedule: seq<nat>, c: Cell)
    requires Sound(pl, spec, good) && Finished(TilesOf(pl, stale), After(pl, stale, before, schedule)) && InImage(pl, c)
    ensures var st := After(pl, stale, before, schedule); c in st.shared && st.shared[c] == spec(pl.last, c.0, c.1, c.2)
    ensures Stores(TilesOf(pl, stale), Start(TilesOf(pl, stale), before), schedule, c) == 1
  {
    var m, st := TilesOf(pl, stale), After(pl, stale, before, schedule);
    PieceOf(pl.rows, c.1);
    PieceOf(pl.cols, c.2);
    var p := pl.rows.Of(c.1);
    RowKept(pl, spec, good, stale, before, schedule, p);
    StoredOnce(pl, spec, good, stale, before, schedule, p, c);
    assert m.step(p, st.locals[p]).None?;
    assert Done(pl, st.locals[p], c);
    assert Owns(pl, p, c);
  }

  // The sequential loop is one of the interleavings that finish.

  /** what row p still has to do, as its loops count it */
  function Left<P>(pl: Pipeline<P>, p: int, l: Local<P>): (nat, nat, nat, nat, nat) {
    if l.t >= pl.cols.n then (0, 0, 0, 0, 0)
    else
      var b := pl.box(l.nest, p, l.t);
      (pl.cols.n - l.t, Distance(l.nest, pl.last + 1), Distance(l.k, pl.planes), Distance(l.i, b.r1 + 1), Distance(l.j, b.c1 + 1))
  }

  function Distance(a: int, b: int): nat { if a < b then b - a else 0 }

  predicate Less(a: (nat, nat, nat, nat, nat), b: (nat, nat, nat, nat, nat)) {
    || a.0 < b.0 || (a.0 == b.0 && a.1 < b.1) || (a.0 == b.0 && a.1 == b.1 && a.2 < b.2)
    || (a.0 == b.0 && a.1 == b.1 && a.2 == b.2 && (a.3 < b.3 || (a.3 == b.3 && a.4 < b.4)))
  }

  lemma LeftLess<P>(pl: Pipeline<P>, p: int, l: Local<P>)
    requires l.t < pl.cols.n
    ensures Less(Left(pl, p, TileStep(pl, p, l).value.0), Left(pl, p, l))
  {
  }

  lemma OneMore<P(!new)>(pl: Pipeline<P>, stale: int -> Memory<P>, before: map<Cell, P>, schedule: seq<nat>, p: nat)
    requires p < pl.rows.n && After(pl, stale, before, schedule).locals[p].t < pl.cols.n
    ensures var st := After(pl, stale, before, schedule);
            After(pl, stale, before, schedule + [p]).locals == st.locals[p := TileStep(pl, p, st.locals[p]).value.0]
  {
    assert (schedule + [p])[..|schedule|] == schedule;
  }

  lemma {:induction false} FinishRow<P(!new)>(pl: Pipeline<P>, stale: int -> Memory<P>, before: map<Cell, P>, schedule: seq<nat>, p: nat)
    returns (more: seq<nat>)
    requires p < pl.rows.n && Sorted(schedule) && forall i :: 0 <= i < |schedule| ==> schedule[i] <= p
    ensures Sorted(more) && forall i :: 0 <= i < |more| ==> more[i] <= p
    ensures var st := After(pl, stale, before, more);
            && st.locals[p].t >= pl.cols.n
            && forall q :: 0 <= q < pl.rows.n && q != p ==> st.locals[q] == After(pl, stale, before, schedule).locals[q]
    decreases Left(pl, p, After(pl, stale, before, schedule).locals[p]).0, Left(pl, p, After(pl, stale, before, schedule).locals[p]).1,
              Left(pl, p, After(pl, stale, before, schedule).locals[p]).2, Left(pl, p, After(pl, stale, before, schedule).locals[p]).3,
              Left(pl, p, After(pl, stale, before, schedule).locals[p]).4
  {
    var l := After(pl, stale, before, schedule).locals[p];
    more := schedule;
    if l.t < pl.cols.n {
      OneMore(pl, stale, before, schedule, p);
      LeftLess(pl, p, l);
      more := FinishRow(pl, stale, before, schedule + [p], p);
    }
  }

  /** One row of tiles after the other: the first n rows. */
  lemma {:induction false} SequentialRows<P(!new)>(pl: Pipeline<P>, stale: int -> Memory<P>, before: map<Cell, P>, n: nat) returns (schedule: seq<nat>)
    requires n <= pl.rows.n
    ensures Sorted(schedule) && forall i :: 0 <= i < |schedule| ==> schedule[i] < n
    ensures forall q :: 0 <= q < n ==> After(pl, stale, before, schedule).locals[q].t >= pl.cols.n
  {
    schedule := [];
    if n > 0 {
      schedule := SequentialRows(pl, stale, before, n - 1);
      schedule := FinishRow(pl, stale, before, schedule, n - 1);
    }
  }

  /** The sequential program finishes. */
  lemma SequentialFinishes<P(!new)>(pl: Pipeline<P>, stale: int -> Memory<P>, before: map<Cell, P>) returns (schedule: seq<nat>)
    ensures Sorted(schedule) && Finished(TilesOf(pl, stale), After(pl, stale, before, schedule))
  {
    schedule := SequentialRows(pl, stale, before, pl.rows.n);
  }

  /** Some interleaving finishes, and all that do give `out`. */
  ghost predicate AlwaysEndsAs<P(!new)>(pl: Pipeline<P>, stale: int -> Memory<P>, before: map<Cell, P>, out: Stage<P>) {
    && (exists schedule :: Finished(TilesOf(pl, stale), After(pl, stale, before, schedule)))
    && forall schedule :: Finished(TilesOf(pl, stale), After(pl, stale, before, schedule)) ==> EndsAs(pl, stale, before, schedule, out)
  }

  lemma AllSchedulesFill<P(!new)>(pl: Pipeline<P>, spec: Memory<P>, good: Good, stale: int -> Memory<P>, before: map<Cell, P>, out: Stage<P>)
    requires Sound(pl, spec, good)
    requires forall c {:trigger InImage(pl, c)} :: InImage(pl, c) ==> out(c.0, c.1, c.2) == spec(pl.last, c.0, c.1, c.2)
    ensures AlwaysEndsAs(pl, stale, before, out)
  {
    var sequential := SequentialFinishes(pl, stale, before);
    forall schedule | Finished(TilesOf(pl, stale), After(pl, stale, before, schedule)) ensures EndsAs(pl, stale, before, schedule, out) {
      EveryScheduleFills(pl, spec, good, stale, before, schedule, out);
    }
  }
}
