/** The blocks of a memory pool: the free ones are chained through their own first word. */
module MemoryPool {
  import opened Types
  import opened Sequences

  class Pool {
    const capacity: nat
    /** The first word of each block: while it is free, the next free block. */
    const links: array<Option<nat>>
    var head: Option<nat>
    /** The free blocks, first the one to be handed out next. */
    ghost var free: seq<nat>

    /** The `i`th free block is chained to the next one. */
    ghost predicate Chained(i: nat)
      reads this, links
    {
      i < |free| && free[i] < links.Length && links[free[i]] == if i + 1 < |free| then Some(free[i + 1]) else None
    }

    ghost predicate Valid()
      reads this, links
    {
      && links.Length == capacity && NoDup(free)
      && head == (if free == [] then None else Some(free[0]))
      && (forall i :: 0 <= i < |free| ==> Chained(i))
    }

    /** The loop of `osMemoryPoolNew`: all blocks are free, and the last one comes first. */
    constructor (links: array<Option<nat>>)
      modifies links
      ensures Valid() && capacity == links.Length && this.links == links
      ensures |free| == capacity && forall i :: 0 <= i < capacity ==> free[i] == capacity - 1 - i
    {
      capacity := links.Length;
      this.links := links;
      head := None;
      free := [];
      new;
      var i := 0;
      while i < capacity
        invariant 0 <= i <= capacity && Valid() && |free| == i
        invariant forall j :: 0 <= j < i ==> free[j] == i - 1 - j
      {
        Push(i);
        i := i + 1;
      }
    }

    /** The locked region of `osMemoryPoolAlloc`; a block must be free, which the token guarantees. */
    method Pop() returns (block: nat)
      requires Valid() && free != []
      modifies this`head, this`free
      ensures Valid() && block == old(free[0]) && free == old(free[1..])
      ensures block !in free
    {
      block := head.value;
      assert Chained(0);
      label Before:
      head := links[block];
      free := free[1..];
      forall i | 0 <= i < |free| ensures Chained(i) {
        assert old@Before(Chained(i + 1));
      }
    }

    /** The locked region of `osMemoryPoolFree`, for a block that is not free. */
    method Push(block: nat)
      requires Valid() && block < capacity && block !in free
      modifies this`head, this`free, links
      ensures Valid() && free == [block] + old(free)
      ensures forall b :: 0 <= b < capacity && b != block ==> links[b] == old(links[b])
    {
      label Before:
      links[block] := head;
      head := Some(block);
      free := [block] + free;
      forall i | 0 <= i < |free| ensures Chained(i) {
        if i > 0 {
          assert old@Before(Chained(i - 1));
          assert free[i] in old(free);
        }
      }
    }
  }
}
