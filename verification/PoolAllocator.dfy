/** The linked list of simple_pool_allocator.cpp. */
module PoolAllocator {
  import opened PoolSpec

  /** what malloc returns */
  class Block {
    const size: int
    /** which of the pool's buffers it is */
    ghost const index: nat

    constructor (size: int, ghost index: nat)
      ensures this.size == size && this.index == index
    {
      this.size, this.index := size, index;
    }
  }

  class Node {
    var alloc: Block
    var size: int
    var inUse: bool
    var next: Node?
    /** where in the list it is */
    ghost const index: nat

    constructor (alloc: Block, size: int, ghost index: nat)
      ensures this.alloc == alloc && this.size == size && inUse && next == null && this.index == index
    {
      this.alloc, this.size, inUse, next, this.index := alloc, size, true, null, index;
    }
  }

  class Pool {
    var allocBegin: Node?
    var allocEnd: Node?
    // The list's nodes in order, what they say, and the buffers they stand for.
    ghost var nodes: seq<Node>
    ghost var slots: seq<Slot>
    ghost var blocks: seq<Block>

    ghost predicate Valid()
      reads this, nodes
    {
      && |slots| == |blocks| == |nodes|
      && (forall i :: 0 <= i < |nodes| ==> nodes[i].index == i)
      && (forall i :: 0 <= i < |nodes| ==> blocks[i].index == i)
      && (forall i :: 0 <= i < |nodes| ==> nodes[i].alloc == blocks[i])
      && (forall i :: 0 <= i < |nodes| ==> blocks[i].size == slots[i].size)
      && (forall i :: 0 <= i < |nodes| ==> nodes[i].size == slots[i].size && nodes[i].inUse == slots[i].inUse)
      && (forall i {:trigger nodes[i].next} :: 0 <= i < |nodes| ==> nodes[i].next == At(i + 1))
      && allocBegin == At(0) && (nodes != [] ==> allocEnd == nodes[|nodes| - 1])
    }

    ghost function At(i: nat): Node?
      reads this
    {
      if i < |nodes| then nodes[i] else null
    }

    /** pool_init: lines 54-57 */
    constructor ()
      ensures Valid() && nodes == [] && slots == [] && blocks == []
    {
      allocBegin, allocEnd := null, null;
      nodes, slots, blocks := [], [], [];
    }

    /** the search loop of pool_allocate: lines 71-80 */
    method FindFree(size: int) returns (found: Node?)
      requires Valid()
      ensures found == At(FirstFree(slots, size, 0))
    {
      found := allocBegin;
      ghost var i := 0;
      while found != null
        invariant i <= |nodes| && found == At(i)
        invariant FirstFree(slots, size, 0) == FirstFree(slots, size, i)
        decreases |nodes| - i
      {
        if !found.inUse && found.size == size {
          return;
        }
        found := found.next;
        i := i + 1;
      }
    }

    /** node i changes hands */
    method SetInUse(n: Node, inUse: bool, ghost i: nat)
      requires Valid() && i < |nodes| && nodes[i] == n
      modifies this`slots, n
      ensures Valid() && slots == old(slots)[i := Slot(old(slots)[i].size, inUse)]
    {
      n.inUse := inUse;
      slots := slots[i := Slot(slots[i].size, inUse)];
    }

    /** the first node: lines 61-69 */
    method First(size: int) returns (b: Block)
      requires Valid() && nodes == []
      modifies this
      ensures Valid() && fresh(b) && |nodes| == 1 && fresh(nodes[0])
      ensures slots == [Slot(size, true)] && blocks == [b]
    {
      b := new Block(size, 0);
      allocBegin := new Node(b, size, 0);
      allocEnd := allocBegin;
      nodes, slots, blocks := [allocBegin], [Slot(size, true)], [b];
    }

    /** a new node at the end of the list: lines 83-90 */
    method Append(size: int) returns (b: Block)
      requires Valid() && nodes != []
      modifies this, allocEnd
      ensures Valid() && fresh(b) && |nodes| == |old(nodes)| + 1 && nodes[..|old(nodes)|] == old(nodes) && fresh(nodes[|old(nodes)|])
      ensures slots == old(slots) + [Slot(size, true)] && blocks == old(blocks) + [b]
    {
      b := new Block(size, |nodes|);
      var last := new Node(b, size, |nodes|);
      allocEnd.next := last;
      allocEnd := last;
      nodes, slots, blocks := nodes + [last], slots + [Slot(size, true)], blocks + [b];
    }

    /** pool_allocate: lines 60-91. The first free node of the size, or else a new one at the end. */
    method Allocate(size: int) returns (b: Block)
      requires Valid()
      modifies this, nodes
      ensures Valid() && |nodes| >= |old(nodes)| && nodes[..|old(nodes)|] == old(nodes)
      ensures forall i :: |old(nodes)| <= i < |nodes| ==> fresh(nodes[i])
      ensures slots == Taken(old(slots), size)
      ensures var i := FirstFree(old(slots), size, 0);
              if i < |old(slots)| then blocks == old(blocks) && b == blocks[i] else blocks == old(blocks) + [b] && fresh(b)
      ensures b.size == size
    {
      if allocBegin == null {
        b := First(size);
        return;
      }
      var found := FindFree(size);
      if found != null {
        b := found.alloc;
        SetInUse(found, true, FirstFree(slots, size, 0));
      } else {
        b := Append(size);
      }
    }

    /** pool_deallocate: lines 123-135. Its assertions are the precondition; i is the one node that has the buffer. */
    method Deallocate(b: Block, ghost i: nat)
      requires Valid() && i < |blocks| && blocks[i] == b && slots[i].inUse
      modifies this`slots, nodes
      ensures Valid() && slots == Released(old(slots), i)
    {
      var current := allocBegin;
      ghost var k := 0;
      while current.alloc != b
        invariant k <= i && current == nodes[k]
        decreases |nodes| - k
      {
        current := current.next;
        k := k + 1;
      }
      SetInUse(current, false, i);
    }

    /** pool_num_allocs: lines 93-102 */
    method NumAllocs() returns (n: int)
      requires Valid() && nodes != []
      ensures n == |slots|
    {
      n := 0;
      var current := allocBegin;
      while current != null
        invariant 0 <= n <= |nodes| && current == At(n)
        decreases |nodes| - n
      {
        n := n + 1;
        current := current.next;
      }
    }

    /** pool_total_alloc: lines 104-113 */
    method TotalAlloc() returns (bytes: int)
      requires Valid() && nodes != []
      ensures bytes == Bytes(slots)
    {
      bytes := 0;
      var current := allocBegin;
      ghost var i := 0;
      while current != null
        invariant i <= |nodes| && current == At(i)
        invariant bytes == Bytes(slots[..i])
        decreases |nodes| - i
      {
        assert slots[..i + 1][..i] == slots[..i];
        bytes := bytes + current.size;
        current := current.next;
        i := i + 1;
      }
      assert slots[..i] == slots;
    }

    /** pool_destroy: lines 138-147. What is freed is every buffer and every node, once each; the list is not valid
        afterwards. A node is freed after its last use. */
    method Destroy() returns (freed: seq<Block>, freedNodes: seq<Node>)
      requires Valid() && forall i :: 0 <= i < |slots| ==> !slots[i].inUse
      ensures freed == blocks && freedNodes == nodes
      ensures forall i, j :: 0 <= i < j < |freed| ==> freed[i] != freed[j] && freedNodes[i] != freedNodes[j]
    {
      freed, freedNodes := [], [];
      var current := allocBegin;
      while current != null
        invariant |freed| == |freedNodes| <= |nodes| && current == At(|freed|)
        invariant freed == blocks[..|freed|] && freedNodes == nodes[..|freed|]
        decreases |nodes| - |freed|
      {
        freed := freed + [current.alloc];
        var previous := current;
        current := previous.next;
        freedNodes := freedNodes + [previous];
      }
      assert forall i, j :: 0 <= i < j < |freed| ==> blocks[i].index != blocks[j].index && nodes[i].index != nodes[j].index;
    }
  }

  /** The pool is as the client's calls leave it, and the client holds what it should. */
  ghost predicate Follows(pool: Pool, held: seq<Block>, calls: seq<Call>)
    reads pool, pool.nodes
  {
    && Proper(calls) && pool.Valid()
    && var st := Perform([], calls);
       pool.slots == st.slots && |held| == |st.got|
       && forall k :: k in Held(calls) ==> k < |held| && st.got[k] < |pool.blocks| && held[k] == pool.blocks[st.got[k]]
  }

  /** So every buffer that the client holds has the size it asked for, and no two are the same. */
  ghost predicate HoldsRight(held: seq<Block>, calls: seq<Call>) {
    && (forall k :: k in Held(calls) ==> k < |held| && k < |Sizes(calls)| && held[k].size == Sizes(calls)[k])
    && (forall k, m :: k in Held(calls) && m in Held(calls) && k != m ==> k < |held| && m < |held| && held[k] != held[m])
  }

  lemma FollowsHoldsRight(pool: Pool, held: seq<Block>, calls: seq<Call>)
    requires Follows(pool, held, calls)
    ensures HoldsRight(held, calls)
  {
    var st := Perform([], calls);
    forall k, m | k in Held(calls) && m in Held(calls) && k != m ensures held[k] != held[m] {
      assert pool.blocks[st.got[k]].index == st.got[k] && pool.blocks[st.got[m]].index == st.got[m];
    }
  }

  method RunAllocate(pool: Pool, held: seq<Block>, size: int, ghost before: seq<Call>) returns (held': seq<Block>)
    requires Follows(pool, held, before) && forall n :: n in pool.nodes ==> allocated(n)
    modifies pool, pool.nodes
    ensures Follows(pool, held', before + [Allocate(size)])
    ensures |pool.nodes| >= |old(pool.nodes)| && pool.nodes[..|old(pool.nodes)|] == old(pool.nodes)
    ensures forall i :: |old(pool.nodes)| <= i < |pool.nodes| ==> fresh(pool.nodes[i])
  {
    HeldInRange(before);
    PerformLast([], before, Allocate(size));
    ghost var st := Perform([], before);
    var b := pool.Allocate(size);
    held' := held + [b];
  }

  method RunRelease(pool: Pool, held: seq<Block>, k: nat, ghost before: seq<Call>)
    requires Follows(pool, held, before) && k in Held(before)
    modifies pool`slots, pool.nodes
    ensures Follows(pool, held, before + [Release(k)])
  {
    HeldInRange(before);
    PerformLast([], before, Release(k));
    pool.Deallocate(held[k], Perform([], before).got[k]);
  }

  /** one more call */
  lemma PerformLast(v: seq<Slot>, before: seq<Call>, call: Call)
    requires Proper(before) && (call.Release? ==> call.k in Held(before))
    ensures Proper(before + [call])
    ensures forall k :: k in Held(before) ==> k < |Perform(v, before).got|
    ensures call.Allocate? ==>
              Perform(v, before + [call]) ==
                State(Taken(Perform(v, before).slots, call.size), Perform(v, before).got + [FirstFree(Perform(v, before).slots, call.size, 0)])
              && Held(before + [call]) == Held(before) + {|Perform(v, before).got|}
    ensures call.Release? ==>
              Perform(v, before + [call]) ==
                State(Released(Perform(v, before).slots, Perform(v, before).got[call.k]), Perform(v, before).got)
              && Held(before + [call]) == Held(before) - {call.k}
  {
    assert (before + [call])[..|before|] == before;
    HeldInRange(before);
  }

  /** Run a client over a new pool; `held[k]` is what its allocation number k got. */
  method Run(calls: seq<Call>) returns (pool: Pool, held: seq<Block>)
    requires Proper(calls)
    ensures fresh(pool) && (forall i :: 0 <= i < |pool.nodes| ==> fresh(pool.nodes[i]))
    ensures Follows(pool, held, calls) && HoldsRight(held, calls)
    decreases |calls|
  {
    if calls == [] {
      pool := new Pool();
      held := [];
      FollowsHoldsRight(pool, held, calls);
      return;
    }
    ghost var before, last := calls[..|calls| - 1], calls[|calls| - 1];
    pool, held := Run(calls[..|calls| - 1]);
    assert calls == before + [last];
    match calls[|calls| - 1] {
      case Allocate(size) =>
        held := RunAllocate(pool, held, size, before);
      case Release(k) =>
        RunRelease(pool, held, k, before);
    }
    FollowsHoldsRight(pool, held, calls);
  }

  /** What the video demo's counters show: as many buffers of each size as were ever needed at once. */
  method RunAndMeasure(calls: seq<Call>, ghost sizes: seq<int>) returns (bytes: int)
    requires Proper(calls) && Sizes(calls) != []
    requires Distinct(sizes) && forall n :: n in Sizes(calls) ==> n in sizes
    ensures bytes == WeightedPeaks(sizes, calls)
  {
    var pool, held := Run(calls);
    assert pool.nodes != [] by {
      SomeSlot(calls);
    }
    bytes := pool.TotalAlloc();
    BytesArePeaks(calls, sizes);
  }

  lemma {:induction false} SomeSlot(calls: seq<Call>)
    requires Proper(calls) && Sizes(calls) != []
    ensures Perform([], calls).slots != []
  {
    var before := calls[..|calls| - 1];
    if Sizes(before) != [] {
      SomeSlot(before);
    }
  }
}
