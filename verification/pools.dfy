/** What a slab allocator promises its clients, as a value: the free blocks in the order
    in which they will be handed out, and for every block in use what it is used for. */
module Pools {
  import opened Seqs

  datatype Pool<B(==), T> = Pool(free: seq<B>, live: map<B, T>) {
    ghost predicate Wf(capacity: nat) {
      && NoDup(free)
      && (forall b :: b in free ==> b !in live)
      && |free| + |live| == capacity
    }

    /** The pool after the block at the head of the free list was handed out. */
    function Take(note: T): (p: Pool<B, T>)
      requires free != []
    {
      Pool(free[1..], live[free[0] := note])
    }

    /** The pool after `b` was given back. A block that is not in use is refused. */
    function Give(b: B): (p: Pool<B, T>) {
      if b in live then Pool([b] + free, live - {b}) else this
    }

    lemma TakeKeeps(note: T, capacity: nat)
      requires Wf(capacity)
      requires free != []
      ensures Take(note).Wf(capacity)
      ensures free[0] !in live
      ensures Take(note).live.Keys == live.Keys + {free[0]}
    {
      assert free[0] in free;
      assert Take(note).live.Keys == live.Keys + {free[0]};
      assert |Take(note).live.Keys| == |live.Keys| + 1;
    }

    lemma GiveKeeps(b: B, capacity: nat)
      requires Wf(capacity)
      ensures Give(b).Wf(capacity)
      ensures b in live ==> |Give(b).live| == |live| - 1
    {
      if b in live {
        assert live.Keys == Give(b).live.Keys + {b};
        assert |live.Keys| == |Give(b).live.Keys| + 1;
      }
    }

    /** Giving back the block just taken restores the pool, its free list in the same order. */
    lemma GiveUndoesTake(note: T, capacity: nat)
      requires Wf(capacity)
      requires free != []
      ensures Take(note).Give(free[0]) == this
    {
      assert free[0] in free;
      assert [free[0]] + free[1..] == free;
      assert live[free[0] := note] - {free[0]} == live;
    }
  }
}
