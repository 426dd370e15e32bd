/** InMemoryBlockStore (sim-runtime): a FIFO cache kept as a set of placements and an insertion deque. */
module BlockStore {
  import opened SimCore

  datatype Placement = Placement(block: string, level: nat, node: nat)

  /** The last `capacity` entries of a FIFO. */
  function LastOf(blocks: seq<string>, capacity: nat): seq<string> {
    if |blocks| <= capacity then blocks else blocks[|blocks| - capacity..]
  }

  /** What inserting one block into a FIFO cache means; a resident block keeps its place. */
  function Inserted(blocks: seq<string>, block: string, capacity: nat): seq<string> {
    LastOf(if block in blocks then blocks else blocks + [block], capacity)
  }

  predicate Distinct(blocks: seq<string>) { forall i, j :: 0 <= i < j < |blocks| ==> blocks[i] != blocks[j] }

  /** The cache after a history of insertions. */
  function History(inserts: seq<string>, capacity: nat): seq<string> {
    if inserts == [] then []
    else Inserted(History(inserts[..|inserts| - 1], capacity), inserts[|inserts| - 1], capacity)
  }

  /** Over any history the cache stays within capacity, free of repeats, and holds the block inserted last. */
  lemma {:induction false} HistoryBounded(inserts: seq<string>, capacity: nat)
    ensures |History(inserts, capacity)| <= capacity && Distinct(History(inserts, capacity))
    ensures inserts != [] && capacity > 0 ==> inserts[|inserts| - 1] in History(inserts, capacity)
  {
    if inserts != [] {
      HistoryBounded(inserts[..|inserts| - 1], capacity);
      var before, block := History(inserts[..|inserts| - 1], capacity), inserts[|inserts| - 1];
      if block !in before {
        var longer := before + [block];
        assert longer[|before|] == block;
        if |longer| > capacity > 0 { assert longer[|longer| - capacity..][capacity - 1] == block; }
      }
    }
  }

  /** A resident block changes nothing; a new one goes last, and pushes out the oldest if the cache is full. */
  lemma InsertCases(blocks: seq<string>, block: string, capacity: nat)
    requires |blocks| <= capacity
    ensures block in blocks ==> Inserted(blocks, block, capacity) == blocks
    ensures block !in blocks && |blocks| < capacity ==> Inserted(blocks, block, capacity) == blocks + [block]
    ensures block !in blocks && |blocks| == capacity > 0 ==>
              Inserted(blocks, block, capacity) == blocks[1..] + [block]
  {
  }

  /** An insertion is admitted unless the block is among the last `capacity` admissions. */
  function Admitted(inserts: seq<string>, capacity: nat): seq<string> {
    if inserts == [] then []
    else
      var before, block := Admitted(inserts[..|inserts| - 1], capacity), inserts[|inserts| - 1];
      if exists i :: 0 <= i < |before| && |before| - capacity <= i && before[i] == block
      then before else before + [block]
  }

  lemma Recent(blocks: seq<string>, capacity: nat, block: string)
    ensures block in LastOf(blocks, capacity)
            <==> exists i :: 0 <= i < |blocks| && |blocks| - capacity <= i && blocks[i] == block
  {
    var last := LastOf(blocks, capacity);
    if block in last {
      var j :| 0 <= j < |last| && last[j] == block;
      assert blocks[|blocks| - |last| + j] == block;
    }
    if i :| 0 <= i < |blocks| && |blocks| - capacity <= i && blocks[i] == block {
      assert last[i - (|blocks| - |last|)] == block;
    }
  }

  /**
   First in, first out: over any history the cache holds exactly the last `capacity`
   admissions, oldest first.  So what was evicted is the earlier admissions, in the order in
   which they came in.
   */
  lemma {:induction false} HoldsLastAdmitted(inserts: seq<string>, capacity: nat)
    ensures History(inserts, capacity) == LastOf(Admitted(inserts, capacity), capacity)
  {
    if inserts != [] {
      HoldsLastAdmitted(inserts[..|inserts| - 1], capacity);
      var before, block := Admitted(inserts[..|inserts| - 1], capacity), inserts[|inserts| - 1];
      Recent(before, capacity, block);
      LastAppend(before, block, capacity);
    }
  }

  lemma LastAppend(before: seq<string>, block: string, capacity: nat)
    ensures LastOf(LastOf(before, capacity), capacity) == LastOf(before, capacity)
    ensures LastOf(LastOf(before, capacity) + [block], capacity) == LastOf(before + [block], capacity)
  {
  }

  /** The placements of a list of blocks at the store's level and node. */
  function Image(blocks: seq<string>, level: nat, node: nat): set<Placement> {
    set b | b in blocks :: Placement(b, level, node)
  }

  /** Dropping the oldest block drops exactly its placement. */
  lemma ImageTail(blocks: seq<string>, level: nat, node: nat)
    requires Distinct(blocks) && blocks != []
    ensures Distinct(blocks[1..])
    ensures Image(blocks[1..], level, node) == Image(blocks, level, node) - {Placement(blocks[0], level, node)}
    ensures Placement(blocks[0], level, node) in Image(blocks, level, node)
  {
    assert blocks == [blocks[0]] + blocks[1..];
    assert blocks[0] !in blocks[1..];
  }

  lemma ImageAppend(blocks: seq<string>, block: string, level: nat, node: nat)
    requires Distinct(blocks) && block !in blocks
    ensures Distinct(blocks + [block])
    ensures Image(blocks + [block], level, node) == Image(blocks, level, node) + {Placement(block, level, node)}
  {
  }

  lemma {:induction false} ImageSize(blocks: seq<string>, level: nat, node: nat)
    requires Distinct(blocks)
    ensures |Image(blocks, level, node)| == |blocks|
  {
    if blocks != [] {
      ImageTail(blocks, level, node);
      ImageSize(blocks[1..], level, node);
    }
  }

  class InMemoryBlockStore {
    const capacity: nat
    const level: nat
    const node: nat
    var placements: set<Placement>
    var insertionOrder: seq<string>

    /** The set and the deque name the same distinct blocks. */
    ghost predicate Agree()
      reads this
    {
      Distinct(insertionOrder) && placements == Image(insertionOrder, level, node)
    }

    ghost predicate Valid()
      reads this
    {
      Agree() && |insertionOrder| <= capacity
    }

    constructor (capacity: nat, level: nat, node: nat)
      ensures Valid() && this.capacity == capacity && insertionOrder == []
    {
      this.capacity := capacity;
      this.level := level;
      this.node := node;
      placements := {};
      insertionOrder := [];
    }

    method Lookup(block: string) returns (r: Option<Placement>)
      requires Valid()
      ensures r == if block in insertionOrder then Some(Placement(block, level, node)) else None
    {
      assert block in insertionOrder ==> Placement(block, level, node) in placements;
      if exists x :: x in placements && x.block == block {
        var x :| x in placements && x.block == block;
        return Some(x);
      }
      return None;
    }

    /** Evicts the oldest blocks, at most maxBlocks of them, and returns them oldest first. */
    method Evict(maxBlocks: nat) returns (evicted: seq<string>)
      requires Agree()
      modifies this
      ensures Agree()
      ensures var n := Min(maxBlocks, |old(insertionOrder)|);
        evicted == old(insertionOrder)[..n] && insertionOrder == old(insertionOrder)[n..]
    {
      ghost var all := insertionOrder;
      evicted := [];
      var i := 0;
      while i < maxBlocks && insertionOrder != []
        invariant 0 <= i <= maxBlocks && i <= |all| && Agree()
        invariant evicted == all[..i] && insertionOrder == all[i..]
      {
        ImageTail(insertionOrder, level, node);
        var block := insertionOrder[0];
        insertionOrder := insertionOrder[1..];
        var found := exists x :: x in placements && x.block == block;
        if found {
          var x :| x in placements && x.block == block;
          assert x == Placement(block, level, node);
          placements := placements - {x};
          evicted := evicted + [block];
        }
        i := i + 1;
      }
    }

    /** The eviction loop of stage_insert; it ends because each eviction shrinks the set as well. */
    method Trim()
      requires Agree()
      modifies this
      ensures Agree() && insertionOrder == LastOf(old(insertionOrder), capacity)
    {
      ghost var all := insertionOrder;
      ghost var k := 0;
      ImageSize(insertionOrder, level, node);
      while |placements| > capacity
        invariant Agree() && |placements| == |insertionOrder|
        invariant 0 <= k <= |all| && insertionOrder == all[k..]
        invariant k > 0 ==> |insertionOrder| >= capacity
        decreases |placements|
      {
        var _ := Evict(1);
        ImageSize(insertionOrder, level, node);
        k := k + 1;
      }
    }

    /** Insertion is exactly FIFO insertion with the overflow evicted. */
    method StageInsert(block: string)
      requires Valid()
      modifies this
      ensures Valid() && insertionOrder == Inserted(old(insertionOrder), block, capacity)
    {
      var x := Placement(block, level, node);
      assert x in placements <==> block in insertionOrder;
      if x !in placements {
        ImageAppend(insertionOrder, block, level, node);
        placements := placements + {x};
        insertionOrder := insertionOrder + [block];
      }
      Trim();
    }
  }
}
