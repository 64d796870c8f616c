/** What a pool of reusable buffers promises its clients: simple_pool_allocator.cpp without its linked list. */
module PoolSpec {

  /** a node of the pool's list */
  datatype Slot = Slot(size: int, inUse: bool)

  /** the first node from i on that is free and has the size, |v| if there is none */
  function FirstFree(v: seq<Slot>, size: int, i: nat): (r: nat)
    requires i <= |v|
    ensures i <= r <= |v|
    ensures r < |v| ==> v[r] == Slot(size, false)
    ensures forall k :: i <= k < r ==> v[k] != Slot(size, false)
    decreases |v| - i
  {
    if i == |v| || v[i] == Slot(size, false) then i else FirstFree(v, size, i + 1)
  }

  function Taken(v: seq<Slot>, size: int): seq<Slot> {
    var i := FirstFree(v, size, 0);
    if i < |v| then v[i := Slot(size, true)] else v + [Slot(size, true)]
  }

  function Released(v: seq<Slot>, i: nat): seq<Slot>
    requires i < |v|
  {
    v[i := Slot(v[i].size, false)]
  }

  /** how many nodes have the size */
  function Nodes(v: seq<Slot>, size: int): nat {
    if v == [] then 0 else Nodes(v[..|v| - 1], size) + if v[|v| - 1].size == size then 1 else 0
  }

  /** how many of them are in use */
  function InUse(v: seq<Slot>, size: int): nat {
    if v == [] then 0 else InUse(v[..|v| - 1], size) + if v[|v| - 1] == Slot(size, true) then 1 else 0
  }

  function Bytes(v: seq<Slot>): int {
    if v == [] then 0 else Bytes(v[..|v| - 1]) + v[|v| - 1].size
  }

  // A client is a list of calls. Release(k) gives back the buffer that its allocation number k got.

  datatype Call = Allocate(size: int) | Release(k: nat)

  /** the sizes asked for, in order */
  function Sizes(calls: seq<Call>): seq<int> {
    if calls == [] then [] else
      var before := Sizes(calls[..|calls| - 1]);
      match calls[|calls| - 1]
      case Allocate(size) => before + [size]
      case Release(_) => before
  }

  /** the allocations not yet given back */
  function Held(calls: seq<Call>): set<nat> {
    if calls == [] then {} else
      var before := calls[..|calls| - 1];
      match calls[|calls| - 1]
      case Allocate(_) => Held(before) + {|Sizes(before)|}
      case Release(k) => Held(before) - {k}
  }

  /** Only what is held is given back, as pool_deallocate asserts. */
  predicate Proper(calls: seq<Call>) {
    calls == [] ||
    (Proper(calls[..|calls| - 1]) &&
     match calls[|calls| - 1]
     case Allocate(_) => true
     case Release(k) => k in Held(calls[..|calls| - 1]))
  }

  /** how many buffers of a size the client holds after its calls */
  function Live(calls: seq<Call>, size: int): int
    requires Proper(calls)
  {
    if calls == [] then 0 else
      var before := calls[..|calls| - 1];
      match calls[|calls| - 1]
      case Allocate(n) => Live(before, size) + if n == size then 1 else 0
      case Release(k) => HeldInRange(before); Live(before, size) - if Sizes(before)[k] == size then 1 else 0
  }

  /** the most it ever held at once */
  function Peak(calls: seq<Call>, size: int): int
    requires Proper(calls)
  {
    if calls == [] then 0 else
      var before := Peak(calls[..|calls| - 1], size);
      if before < Live(calls, size) then Live(calls, size) else before
  }

  lemma {:induction false} HeldInRange(calls: seq<Call>)
    requires Proper(calls)
    ensures forall k :: k in Held(calls) ==> k < |Sizes(calls)|
  {
    if calls != [] {
      HeldInRange(calls[..|calls| - 1]);
    }
  }

  /** The pool after the calls, and which node each allocation got. */
  datatype State = State(slots: seq<Slot>, got: seq<nat>)

  predicate Tracks(st: State, calls: seq<Call>)
    requires Proper(calls)
  {
    && |st.got| == |Sizes(calls)|
    && (forall k :: k in Held(calls) ==> k < |st.got| && st.got[k] < |st.slots| && st.slots[st.got[k]] == Slot(Sizes(calls)[k], true))
    && (forall k, m :: k in Held(calls) && m in Held(calls) && k != m ==> st.got[k] != st.got[m])
  }

  function Perform(v: seq<Slot>, calls: seq<Call>): (st: State)
    requires Proper(calls)
    ensures Tracks(st, calls)
  {
    if calls == [] then State(v, []) else
      var before := calls[..|calls| - 1];
      HeldInRange(before);
      var st := Perform(v, before);
      match calls[|calls| - 1]
      case Allocate(size) => State(Taken(st.slots, size), st.got + [FirstFree(st.slots, size, 0)])
      case Release(k) => State(Released(st.slots, st.got[k]), st.got)
  }

  // Counting.

  lemma {:induction false} Update(v: seq<Slot>, i: nat, x: Slot, size: int)
    requires i < |v|
    ensures Nodes(v[i := x], size) == Nodes(v, size) - (if v[i].size == size then 1 else 0) + if x.size == size then 1 else 0
    ensures InUse(v[i := x], size) == InUse(v, size) - (if v[i] == Slot(size, true) then 1 else 0) + if x == Slot(size, true) then 1 else 0
  {
    var w, n := v[i := x], |v| - 1;
    if i == n {
      assert w[..n] == v[..n];
    } else {
      assert w[..n] == v[..n][i := x];
      Update(v[..n], i, x, size);
    }
  }

  lemma Extend(v: seq<Slot>, x: Slot, size: int)
    ensures Nodes(v + [x], size) == Nodes(v, size) + if x.size == size then 1 else 0
    ensures InUse(v + [x], size) == InUse(v, size) + if x == Slot(size, true) then 1 else 0
  {
    assert (v + [x])[..|v|] == v;
  }

  lemma {:induction false} InUseAtMostNodes(v: seq<Slot>, size: int)
    ensures InUse(v, size) <= Nodes(v, size)
    ensures (forall i :: 0 <= i < |v| ==> v[i] != Slot(size, false)) ==> InUse(v, size) == Nodes(v, size)
    ensures (forall i :: 0 <= i < |v| ==> !v[i].inUse) ==> InUse(v, size) == 0
  {
    if v != [] {
      InUseAtMostNodes(v[..|v| - 1], size);
    }
  }

  /** One allocation adds a node only when all nodes of its size are in use. */
  lemma TakenCounts(v: seq<Slot>, n: int, size: int)
    ensures InUse(Taken(v, n), size) == InUse(v, size) + if n == size then 1 else 0
    ensures Nodes(Taken(v, n), size) == if n == size && InUse(v, size) == Nodes(v, size) then Nodes(v, size) + 1 else Nodes(v, size)
  {
    var i := FirstFree(v, n, 0);
    InUseAtMostNodes(v, size);
    if i < |v| {
      Update(v, i, Slot(n, true), size);
      InUseAtMostNodes(v[i := Slot(n, true)], size);
    } else {
      Extend(v, Slot(n, true), size);
    }
  }

  lemma LiveAtMostPeak(calls: seq<Call>, size: int)
    requires Proper(calls)
    ensures Live(calls, size) <= Peak(calls, size)
  {
  }

  /** Starting from a pool with nothing in use: what is in use is what the client holds, and the nodes of each size
      are as many as it ever held at once, or as there were. */
  lemma {:induction false} NodesArePeak(v: seq<Slot>, calls: seq<Call>, size: int)
    requires Proper(calls) && forall i :: 0 <= i < |v| ==> !v[i].inUse
    ensures InUse(Perform(v, calls).slots, size) == Live(calls, size)
    ensures Nodes(Perform(v, calls).slots, size) ==
            if Peak(calls, size) < Nodes(v, size) then Nodes(v, size) else Peak(calls, size)
  {
    if calls == [] {
      InUseAtMostNodes(v, size);
    } else {
      var before := calls[..|calls| - 1];
      NodesArePeak(v, before, size);
      HeldInRange(before);
      LiveAtMostPeak(before, size);
      var st := Perform(v, before);
      match calls[|calls| - 1] {
        case Allocate(n) =>
          TakenCounts(st.slots, n, size);
        case Release(k) =>
          Update(st.slots, st.got[k], Slot(st.slots[st.got[k]].size, false), size);
      }
    }
  }

  /** Doing it all again over the pool it left, everything given back, adds no node. */
  lemma ReplayAddsNothing(calls: seq<Call>, size: int)
    requires Proper(calls) && Held(calls) == {}
    ensures Nodes(Perform(Perform([], calls).slots, calls).slots, size) == Nodes(Perform([], calls).slots, size)
  {
    var v := Perform([], calls).slots;
    NodesArePeak([], calls, size);
    forall i | 0 <= i < |v| ensures !v[i].inUse {
      if v[i].inUse {
        NothingHeld(calls, i);
      }
    }
    NodesArePeak(v, calls, size);
  }

  /** A node is in use only if a held allocation got it. */
  lemma {:induction false} NothingHeld(calls: seq<Call>, i: nat)
    requires Proper(calls) && i < |Perform([], calls).slots| && Perform([], calls).slots[i].inUse
    ensures exists k :: k in Held(calls) && Perform([], calls).got[k] == i
  {
    var before := calls[..|calls| - 1];
    HeldInRange(before);
    var st := Perform([], before);
    match calls[|calls| - 1] {
      case Allocate(n) =>
        var j := FirstFree(st.slots, n, 0);
        if i == j {
          assert |Sizes(before)| in Held(calls);
        } else {
          NothingHeld(before, i);
          var k :| k in Held(before) && st.got[k] == i;
          assert k in Held(calls);
        }
      case Release(m) =>
        NothingHeld(before, i);
        var k :| k in Held(before) && st.got[k] == i;
        assert k in Held(calls);
    }
  }

  // Bytes: each size counts as often as its nodes.

  function Weighted(sizes: seq<int>, v: seq<Slot>): int {
    if sizes == [] then 0 else Weighted(sizes[1..], v) + sizes[0] * Nodes(v, sizes[0])
  }

  predicate Distinct(sizes: seq<int>) {
    forall i, j :: 0 <= i < j < |sizes| ==> sizes[i] != sizes[j]
  }

  lemma {:induction false} WeightedExtend(sizes: seq<int>, v: seq<Slot>, x: Slot)
    requires Distinct(sizes)
    ensures Weighted(sizes, v + [x]) == Weighted(sizes, v) + if x.size in sizes then x.size else 0
  {
    if sizes != [] {
      WeightedExtend(sizes[1..], v, x);
      Extend(v, x, sizes[0]);
      assert x.size in sizes <==> x.size == sizes[0] || x.size in sizes[1..];
      var n := Nodes(v, sizes[0]);
      assert sizes[0] * (n + 1) == sizes[0] * n + sizes[0];
    }
  }

  lemma {:induction false} WeightedNone(sizes: seq<int>)
    ensures Weighted(sizes, []) == 0
  {
    if sizes != [] {
      WeightedNone(sizes[1..]);
    }
  }

  lemma {:induction false} BytesWeighted(sizes: seq<int>, v: seq<Slot>)
    requires Distinct(sizes) && forall i :: 0 <= i < |v| ==> v[i].size in sizes
    ensures Bytes(v) == Weighted(sizes, v)
  {
    if v == [] {
      WeightedNone(sizes);
    } else {
      var u, x := v[..|v| - 1], v[|v| - 1];
      BytesWeighted(sizes, u);
      WeightedExtend(sizes, u, x);
      assert v == u + [x];
    }
  }

  function WeightedPeaks(sizes: seq<int>, calls: seq<Call>): int
    requires Proper(calls)
  {
    if sizes == [] then 0 else WeightedPeaks(sizes[1..], calls) + sizes[0] * Peak(calls, sizes[0])
  }

  lemma {:induction false} WeightedIsPeaks(sizes: seq<int>, calls: seq<Call>)
    requires Proper(calls)
    ensures Weighted(sizes, Perform([], calls).slots) == WeightedPeaks(sizes, calls)
  {
    if sizes != [] {
      WeightedIsPeaks(sizes[1..], calls);
      NodesArePeak([], calls, sizes[0]);
      PeakNotNegative(calls, sizes[0]);
    }
  }

  lemma {:induction false} PeakNotNegative(calls: seq<Call>, size: int)
    requires Proper(calls)
    ensures Peak(calls, size) >= 0
  {
    if calls != [] {
      PeakNotNegative(calls[..|calls| - 1], size);
    }
  }

  /** pool_total_alloc after any client: every size it asked for, times the most it held of it. */
  lemma BytesArePeaks(calls: seq<Call>, sizes: seq<int>)
    requires Proper(calls) && Distinct(sizes) && forall n :: n in Sizes(calls) ==> n in sizes
    ensures Bytes(Perform([], calls).slots) == WeightedPeaks(sizes, calls)
  {
    var v := Perform([], calls).slots;
    forall i | 0 <= i < |v| ensures v[i].size in sizes {
      SlotSizes(calls, i);
    }
    BytesWeighted(sizes, v);
    WeightedIsPeaks(sizes, calls);
  }

  lemma {:induction false} SlotSizes(calls: seq<Call>, i: nat)
    requires Proper(calls) && i < |Perform([], calls).slots|
    ensures Perform([], calls).slots[i].size in Sizes(calls)
  {
    var before := calls[..|calls| - 1];
    HeldInRange(before);
    var st := Perform([], before);
    if i < |st.slots| {
      SlotSizes(before, i);
    }
    match calls[|calls| - 1] {
      case Allocate(n) => assert n in Sizes(calls);
      case Release(k) =>
    }
  }
}
