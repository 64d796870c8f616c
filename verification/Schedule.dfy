/** The `omp parallel for` over rows of tiles: every interleaving of the rows' steps ends like the sequential loop. */
module Schedule {
  import opened Buffers

  /** a cell of the shared output: plane, row, column */
  type Cell = (int, int, int)

  datatype Action<!P> = Private | Store(cell: Cell, value: P)

  datatype Option<T> = None | Some(value: T)

  /** A row of tiles as a process: from its private state (loop counters, scratchpads) it either is done or takes one
      step, to a new private state, that may store one cell. It reads nothing that other processes write. */
  datatype Machine<!L, !P> = Machine(n: nat, start: nat -> L, step: (nat, L) -> Option<(L, Action<P>)>)

  datatype State<L, P> = State(locals: seq<L>, shared: map<Cell, P>)

  function Start<L, P>(m: Machine<L, P>, shared: map<Cell, P>): State<L, P> {
    State(seq(m.n, p requires 0 <= p < m.n => m.start(p)), shared)
  }

  function Apply<P>(shared: map<Cell, P>, a: Action<P>): map<Cell, P> {
    match a
    case Private => shared
    case Store(cell, value) => shared[cell := value]
  }

  /** process p gets one step, if it is not done */
  function Step<L, P>(m: Machine<L, P>, st: State<L, P>, p: nat): (r: State<L, P>)
    requires |st.locals| == m.n
    ensures |r.locals| == m.n
  {
    if p >= m.n then st
    else
      match m.step(p, st.locals[p])
      case None => st
      case Some((l, a)) => State(st.locals[p := l], Apply(st.shared, a))
  }

  function Run<L, P>(m: Machine<L, P>, st: State<L, P>, schedule: seq<nat>): (r: State<L, P>)
    requires |st.locals| == m.n
    ensures |r.locals| == m.n
  {
    if schedule == [] then st
    else Step(m, Run(m, st, schedule[..|schedule| - 1]), schedule[|schedule| - 1])
  }

  predicate Finished<L, P>(m: Machine<L, P>, st: State<L, P>)
    requires |st.locals| == m.n
  {
    forall p :: 0 <= p < m.n ==> m.step(p, st.locals[p]).None?
  }

  /** Every cell belongs to one process, the only one that ever stores it. */
  ghost predicate Owned<L(!new), P(!new)>(m: Machine<L, P>, owner: Cell -> int) {
    forall p: nat, l :: p < m.n && m.step(p, l).Some? && m.step(p, l).value.1.Store? ==> owner(m.step(p, l).value.1.cell) == p
  }

  /** p alone, k steps */
  function Alone<L, P>(m: Machine<L, P>, st: State<L, P>, p: nat, k: nat): (r: State<L, P>)
    requires |st.locals| == m.n
    ensures |r.locals| == m.n
  {
    if k == 0 then st else Step(m, Alone(m, st, p, k - 1), p)
  }

  function Count(schedule: seq<nat>, p: nat): nat {
    if schedule == [] then 0 else Count(schedule[..|schedule| - 1], p) + if schedule[|schedule| - 1] == p then 1 else 0
  }

  /** What p and its cells see of two states. */
  ghost predicate Agree<L(!new), P(!new)>(m: Machine<L, P>, owner: Cell -> int, p: nat, s: State<L, P>, t: State<L, P>)
    requires |s.locals| == |t.locals| == m.n && p < m.n
  {
    && s.locals[p] == t.locals[p]
    && forall c :: owner(c) == p ==> (c in s.shared <==> c in t.shared) && (c in s.shared ==> s.shared[c] == t.shared[c])
  }

  /** To process p, any interleaving looks as if it had run alone. */
  lemma {:induction false} LooksAlone<L(!new), P(!new)>(m: Machine<L, P>, owner: Cell -> int, st: State<L, P>, schedule: seq<nat>, p: nat)
    requires |st.locals| == m.n && p < m.n && Owned(m, owner)
    ensures Agree(m, owner, p, Run(m, st, schedule), Alone(m, st, p, Count(schedule, p)))
  {
    if schedule != [] {
      LooksAlone(m, owner, st, schedule[..|schedule| - 1], p);
    }
  }

  lemma {:induction false} DoneStaysDone<L(!new), P(!new)>(m: Machine<L, P>, st: State<L, P>, p: nat, k: nat, k': nat)
    requires |st.locals| == m.n && p < m.n && k <= k'
    requires m.step(p, Alone(m, st, p, k).locals[p]).None?
    ensures Alone(m, st, p, k') == Alone(m, st, p, k)
  {
    if k < k' {
      DoneStaysDone(m, st, p, k, k' - 1);
    }
  }

  /** The cells that no process owns stay as they were. */
  lemma {:induction false} UnownedKept<L(!new), P(!new)>(m: Machine<L, P>, owner: Cell -> int, st: State<L, P>, schedule: seq<nat>, c: Cell)
    requires |st.locals| == m.n && Owned(m, owner) && !(0 <= owner(c) < m.n)
    ensures c in Run(m, st, schedule).shared <==> c in st.shared
    ensures c in st.shared ==> Run(m, st, schedule).shared[c] == st.shared[c]
  {
    if schedule != [] {
      UnownedKept(m, owner, st, schedule[..|schedule| - 1], c);
    }
  }

  /** Two interleavings that let every process finish end in the same state. One of them is the sequential loop. */
  lemma ScheduleIndependent<L(!new), P(!new)>(m: Machine<L, P>, owner: Cell -> int, st: State<L, P>, s: seq<nat>, t: seq<nat>)
    requires |st.locals| == m.n && Owned(m, owner)
    requires Finished(m, Run(m, st, s)) && Finished(m, Run(m, st, t))
    ensures Run(m, st, s) == Run(m, st, t)
  {
    var a, b := Run(m, st, s), Run(m, st, t);
    forall p: nat | p < m.n ensures Agree(m, owner, p, a, b) {
      LooksAlone(m, owner, st, s, p);
      LooksAlone(m, owner, st, t, p);
      var k, k' := Count(s, p), Count(t, p);
      if k <= k' {
        DoneStaysDone(m, st, p, k, k');
      } else {
        DoneStaysDone(m, st, p, k', k);
      }
    }
    forall p | 0 <= p < m.n ensures a.locals[p] == b.locals[p] {
      assert Agree(m, owner, p, a, b);
    }
    assert a.locals == b.locals;
    forall c ensures (c in a.shared <==> c in b.shared) && (c in a.shared ==> a.shared[c] == b.shared[c]) {
      if 0 <= owner(c) < m.n {
        assert Agree(m, owner, owner(c), a, b);
      } else {
        UnownedKept(m, owner, st, s, c);
        UnownedKept(m, owner, st, t, c);
      }
    }
    assert a.shared == b.shared;
  }

  /** Process p, in state l, is about to store cell c. */
  predicate StoresNext<L, P>(m: Machine<L, P>, p: nat, l: L, c: Cell) {
    m.step(p, l).Some? && m.step(p, l).value.1.Store? && m.step(p, l).value.1.cell == c
  }

  /** how often a run stores cell c */
  function Stores<L, P>(m: Machine<L, P>, st: State<L, P>, schedule: seq<nat>, c: Cell): nat
    requires |st.locals| == m.n
  {
    if schedule == [] then 0
    else
      var earlier, p := schedule[..|schedule| - 1], schedule[|schedule| - 1];
      Stores(m, st, earlier, c) + if p < m.n && StoresNext(m, p, Run(m, st, earlier).locals[p], c) then 1 else 0
  }

  lemma {:induction false} UnownedNotStored<L(!new), P(!new)>(m: Machine<L, P>, owner: Cell -> int, st: State<L, P>, schedule: seq<nat>, c: Cell)
    requires |st.locals| == m.n && Owned(m, owner) && !(0 <= owner(c) < m.n)
    ensures Stores(m, st, schedule, c) == 0
  {
    if schedule != [] {
      UnownedNotStored(m, owner, st, schedule[..|schedule| - 1], c);
    }
  }

  predicate Sorted(schedule: seq<nat>) {
    forall i, j :: 0 <= i < j < |schedule| ==> schedule[i] <= schedule[j]
  }
}
