/** The slab allocator: a free list threaded through an array of block indices. */
module PoolAllocators {
  import opened Wrappers
  import opened Seqs
  import opened Pools

  const NULL_IDX := -1
  const DETACHED_IDX := -2
  const SIZE_OF_INT := 4

  datatype PoolResult = Success | NotEnoughMemory | UnalignedFree | OutOfRange | DoubleFree

  /** Division that truncates toward zero. */
  function TruncDiv(a: int, b: int): int
    requires 0 < b
  {
    if 0 <= a then a / b else -((-a) / b)
  }

  function TruncMod(a: int, b: int): int
    requires 0 < b
  {
    a - b * TruncDiv(a, b)
  }

  /** `offset` is the address of block number `k`. */
  predicate BlockAt(k: int, itemSize: int, offset: int) {
    offset == k * itemSize
  }

  lemma QuotientIsUnique(k: int, n: int, q: int, rest: int)
    requires 0 < n && k * n == q * n + rest && 0 <= rest < n
    ensures k == q
  {
    NextMultiple(q, k, n);
    NextMultiple(k, q, n);
  }

  lemma NextMultiple(a: int, b: int, n: int)
    requires 0 < n
    ensures a < b ==> a * n + n <= b * n
  {
    if a < b { assert (a + 1) * n <= b * n; }
  }

  lemma OneBlockAtMost(j: int, k: int, itemSize: int, offset: int)
    requires 0 < itemSize && BlockAt(j, itemSize, offset) && BlockAt(k, itemSize, offset)
    ensures j == k
  {
    QuotientIsUnique(j, itemSize, k, 0);
  }

  /** The truncated remainder is zero exactly for the multiples of the item size, negative
      ones too, and then the truncated quotient says which multiple it is. */
  lemma AlignedOffset(offset: int, itemSize: int)
    requires 0 < itemSize
    ensures TruncMod(offset, itemSize) == 0 <==> exists k: int :: BlockAt(k, itemSize, offset)
    ensures TruncMod(offset, itemSize) == 0 ==> BlockAt(TruncDiv(offset, itemSize), itemSize, offset)
  {
    forall k: int | BlockAt(k, itemSize, offset) ensures k == TruncDiv(offset, itemSize) {
      if offset < 0 {
        assert -k * itemSize == -offset;
        QuotientIsUnique(-k, itemSize, (-offset) / itemSize, (-offset) % itemSize);
      } else {
        QuotientIsUnique(k, itemSize, offset / itemSize, offset % itemSize);
      }
    }
    assert TruncMod(offset, itemSize) == 0 ==> BlockAt(TruncDiv(offset, itemSize), itemSize, offset);
  }

  /** What releasing the block at `offset` should answer, given the blocks in use. */
  ghost function Verdict(offset: int, itemSize: int, sizeMax: int, live: set<nat>): PoolResult {
    if !exists k: int :: BlockAt(k, itemSize, offset) then UnalignedFree
    else if offset < 0 || sizeMax * itemSize <= offset then OutOfRange
    else if !exists k: nat :: k in live && BlockAt(k, itemSize, offset) then DoubleFree
    else Success
  }

  // ---------- the pools of the kernel state ----------

  /** A pool without its notes on what the blocks are used for. */
  function Erase<B(==), T>(p: Pool<B, T>): Pool<B, ()> {
    Pool(p.free, map b | b in p.live :: ())
  }

  /** The array stands for any pool of the kernel state: taking and giving back commute with
      forgetting what the blocks are used for. */
  lemma EraseCommutes<B, T>(p: Pool<B, T>, note: T, b: B)
    ensures p.free != [] ==> Erase(p.Take(note)) == Erase(p).Take(())
    ensures Erase(p.Give(b)) == Erase(p).Give(b)
  {
  }

  /** Different blocks of a pool share no byte, and none reaches past the buffer. */
  lemma BlocksAreDisjoint(itemSize: int, sizeMax: int, i: int, j: int, x: int)
    requires 0 < itemSize && 0 <= i < sizeMax && 0 <= j < sizeMax && i != j
    requires i * itemSize <= x < i * itemSize + itemSize
    ensures 0 <= x < sizeMax * itemSize
    ensures !(j * itemSize <= x < j * itemSize + itemSize)
  {
    NextMultiple(i, j, itemSize);
    NextMultiple(j, i, itemSize);
    NextMultiple(i, sizeMax, itemSize);
    assert 0 <= i * itemSize;
  }

  function Indices(n: nat): (ks: seq<nat>)
    ensures |ks| == n && forall i :: 0 <= i < n ==> ks[i] == i
  {
    seq(n, k requires 0 <= k < n => k)
  }

  lemma IndicesAre(n: nat)
    ensures forall k: nat :: k in Indices(n) <==> k < n
    ensures NoDup(Indices(n))
  {
    forall k: nat | k < n ensures k in Indices(n) {
      assert Indices(n)[k] == k;
    }
  }

  // ---------- the free list ----------

  /** What the free list holds for the block at position `i` of the chain. */
  function Successor(chain: seq<nat>, i: nat): int {
    if i + 1 < |chain| then chain[i + 1] else NULL_IDX
  }

  /** Following `f` from `first` visits the blocks of `chain`, each once, and ends there; the
      other blocks are marked as detached. */
  ghost predicate Threads(f: seq<int>, first: int, chain: seq<nat>) {
    && NoDup(chain)
    && first == (if chain == [] then NULL_IDX else chain[0])
    && (forall i :: 0 <= i < |chain| ==>
          chain[i] < |f| && f[chain[i]] == Successor(chain, i))
    && (forall k: nat :: k < |f| && k !in chain ==> f[k] == DETACHED_IDX)
  }

  lemma FirstDetached(f: seq<int>, first: int, chain: seq<nat>)
    requires Threads(f, first, chain) && chain != []
    ensures 0 <= first < |f| && Threads(f[first := DETACHED_IDX], f[first], chain[1..])
  {
    var rest := chain[1..];
    assert chain == [chain[0]] + rest;
    assert f[chain[0]] == Successor(chain, 0);
    forall i | 0 <= i < |rest|
      ensures rest[i] < |f| && rest[i] != first && f[rest[i]] == Successor(rest, i)
    {
      assert rest[i] == chain[i + 1];
    }
  }

  lemma BlockReturned(f: seq<int>, first: int, chain: seq<nat>, idx: nat)
    requires Threads(f, first, chain) && idx < |f| && idx !in chain
    ensures Threads(f[idx := first], idx, [idx] + chain)
  {
    var chain' := [idx] + chain;
    forall i | 0 < i < |chain'|
      ensures chain'[i] < |f| && chain'[i] != idx && f[chain'[i]] == Successor(chain', i)
    {
      assert chain'[i] == chain[i - 1];
    }
    assert Successor(chain', 0) == first;
  }

  lemma DetachedExactly(f: seq<int>, first: int, chain: seq<nat>, idx: nat)
    requires Threads(f, first, chain) && idx < |f|
    ensures f[idx] == DETACHED_IDX <==> idx !in chain
  {
  }

  lemma AllThreaded(f: seq<int>)
    requires f != [] && forall k :: 0 <= k < |f| - 1 ==> f[k] == k + 1
    requires f[|f| - 1] == NULL_IDX
    ensures Threads(f, 0, Indices(|f|))
  {
    IndicesAre(|f|);
  }

  /** The array says which blocks are free, and in which order they will be handed out. */
  lemma {:induction false} ListDeterminesChain(f: seq<int>, first: int, a: seq<nat>, b: seq<nat>)
    requires Threads(f, first, a) && Threads(f, first, b)
    ensures a == b
    decreases |a|
  {
    if a == [] {
      assert b == [];
    } else {
      FirstDetached(f, first, a);
      FirstDetached(f, first, b);
      ListDeterminesChain(f[first := DETACHED_IDX], f[first], a[1..], b[1..]);
      assert a == [first] + a[1..] && b == [first] + b[1..];
    }
  }

  /** The order in which blocks are free determines the array; so a pool whose chain is
      restored is restored cell by cell. */
  lemma ChainDeterminesList(f: seq<int>, g: seq<int>, first: int, first': int, chain: seq<nat>)
    requires Threads(f, first, chain) && Threads(g, first', chain) && |f| == |g|
    ensures f == g && first == first'
  {
    forall k: nat | k < |f| ensures f[k] == g[k] {
      if k in chain {
        var i :| 0 <= i < |chain| && chain[i] == k;
      }
    }
  }

  /** The blocks in use. */
  function Detached(n: nat, chain: seq<nat>): map<nat, ()> {
    map k | k in Indices(n) && k !in chain :: ()
  }

  lemma SplitCard(all: set<nat>, a: set<nat>, b: set<nat>)
    requires a <= all && b == all - a
    ensures |a| + |b| == |all|
  {
    assert all == a + b;
  }

  /** Free and detached blocks together are all the blocks. */
  lemma ChainPlusDetached(f: seq<int>, first: int, chain: seq<nat>)
    requires Threads(f, first, chain)
    ensures Pool(chain, Detached(|f|, chain)).Wf(|f|)
  {
    var ks := Indices(|f|);
    IndicesAre(|f|);
    NoDupCard(chain);
    NoDupCard(ks);
    assert forall i :: 0 <= i < |chain| ==> chain[i] in ks;
    SplitCard((set k | k in ks), (set k | k in chain), Detached(|f|, chain).Keys);
  }

  class PoolAllocator {
    var itemSize: int
    var size: int         // free blocks
    var sizeMax: int      // all blocks
    var bufferSize: int
    var firstIdx: int     // first free block
    var freeList: array<int>
    ghost var chain: seq<nat>  // the free blocks, from firstIdx on

    ghost predicate Valid()
      reads this, freeList
    {
      && 0 < itemSize && 0 < sizeMax == freeList.Length && bufferSize == itemSize * sizeMax
      && size == |chain| && Threads(freeList[..], firstIdx, chain)
    }

    /** The pool this array stands for. */
    ghost function Abs(): Pool<nat, ()>
      requires 0 <= sizeMax
      reads this
    {
      Pool(chain, Detached(sizeMax, chain))
    }

    lemma AbsWf()
      requires Valid()
      ensures Abs().Wf(sizeMax)
    {
      ChainPlusDetached(freeList[..], firstIdx, chain);
    }

    constructor ()
      ensures chain == []
    {
      itemSize, size, sizeMax, bufferSize, firstIdx := 0, 0, 0, 0, 0;
      freeList := new int[0];
      chain := [];
    }

    /** Every block of a fresh pool is free, and they are handed out in index order. */
    method Init(itemSize: int, numItems: int, memorySize: int) returns (r: PoolResult)
      requires 0 < itemSize && 0 < numItems
      modifies this
      ensures r == if memorySize < numItems * (itemSize + SIZE_OF_INT) then NotEnoughMemory else Success
      ensures r.NotEnoughMemory? ==> unchanged(this)
      ensures r.Success? ==> Valid() && fresh(freeList)
      ensures r.Success? ==> this.itemSize == itemSize && sizeMax == numItems
      ensures r.Success? ==> Abs() == Pool(Indices(numItems), map[])
    {
      var requestedSize := numItems * (itemSize + SIZE_OF_INT);
      if memorySize < requestedSize { return NotEnoughMemory; }
      this.itemSize := itemSize;
      size := numItems;
      bufferSize := itemSize * numItems;
      sizeMax := numItems;
      freeList := new int[numItems];
      var i := 0;
      while i < size - 1
        invariant 0 <= i <= size - 1
        invariant size == numItems == freeList.Length == sizeMax && this.itemSize == itemSize
        invariant bufferSize == itemSize * numItems && fresh(freeList)
        invariant forall k :: 0 <= k < i ==> freeList[k] == k + 1
      {
        freeList[i] := i + 1;
        i := i + 1;
      }
      freeList[size - 1] := NULL_IDX;
      firstIdx := 0;
      chain := Indices(numItems);
      AllThreaded(freeList[..]);
      return Success;
    }

    /** Hands out the most recently released block; its address is the offset returned. */
    method GetBlock() returns (offset: Option<int>)
      requires Valid()
      modifies this, freeList
      ensures Valid() && freeList == old(freeList) && sizeMax == old(sizeMax) && itemSize == old(itemSize)
      ensures offset == if old(chain) == [] then None else Some(old(chain[0]) * itemSize)
      ensures Abs() == if old(chain) == [] then old(Abs()) else old(Abs()).Take(())
    {
      if firstIdx == -1 { return None; }
      FirstDetached(freeList[..], firstIdx, chain);
      var detachedIdx := firstIdx;
      firstIdx := freeList[firstIdx];
      size := size - 1;
      freeList[detachedIdx] := DETACHED_IDX;
      chain := chain[1..];
      assert freeList[..] == old(freeList[..])[detachedIdx := DETACHED_IDX];
      TakeDetaches(sizeMax, old(chain));
      return Some(detachedIdx * itemSize);
    }

    static lemma TakeDetaches(n: nat, chain: seq<nat>)
      requires chain != [] && NoDup(chain) && chain[0] < n
      ensures Detached(n, chain[1..]) == Detached(n, chain)[chain[0] := ()]
    {
      assert chain == [chain[0]] + chain[1..];
      assert Indices(n)[chain[0]] == chain[0];
      assert chain[0] !in chain[1..];
    }

    /** Takes a block back if, and only if, its address is that of a block in use. */
    method ReleaseBlock(offset: int) returns (r: PoolResult)
      requires Valid()
      modifies this, freeList
      ensures Valid() && freeList == old(freeList) && sizeMax == old(sizeMax) && itemSize == old(itemSize)
      ensures r == Verdict(offset, itemSize, sizeMax, old(Abs()).live.Keys)
      ensures r.Success? ==>
        exists k: nat :: k in old(Abs()).live && BlockAt(k, itemSize, offset) && Abs() == old(Abs()).Give(k)
      ensures !r.Success? ==> Abs() == old(Abs()) && freeList[..] == old(freeList[..]) && firstIdx == old(firstIdx)
    {
      AlignedOffset(offset, itemSize);
      if TruncMod(offset, itemSize) != 0 { return UnalignedFree; }
      var idx := TruncDiv(offset, itemSize);
      InRange(idx, sizeMax, itemSize);
      if idx < 0 || sizeMax <= idx { return OutOfRange; }
      forall k: int | BlockAt(k, itemSize, offset) ensures k == idx {
        OneBlockAtMost(k, idx, itemSize, offset);
      }
      DetachedExactly(freeList[..], firstIdx, chain, idx);
      assert idx in Detached(sizeMax, chain) <==> idx !in chain by { assert Indices(sizeMax)[idx] == idx; }
      if freeList[idx] != DETACHED_IDX { return DoubleFree; }
      BlockReturned(freeList[..], firstIdx, chain, idx);
      freeList[idx] := firstIdx;
      firstIdx := idx;
      size := size + 1;
      chain := [idx] + chain;
      assert freeList[..] == old(freeList[..])[idx := old(firstIdx)];
      GiveAttaches(sizeMax, old(chain), idx);
      assert Abs() == old(Abs()).Give(idx);
      return Success;
    }

    /** Releasing the address that was just handed out puts every cell back. */
    method GetThenRelease() returns (r: Option<PoolResult>)
      requires Valid()
      modifies this, freeList
      ensures Valid() && freeList == old(freeList)
      ensures r == if old(chain) == [] then None else Some(Success)
      ensures freeList[..] == old(freeList[..]) && firstIdx == old(firstIdx) && size == old(size)
    {
      ghost var f, first, chain0 := freeList[..], firstIdx, chain;
      ghost var pool := Abs();
      AbsWf();
      var offset := GetBlock();
      if offset.None? {
        assert Abs() == pool;
        ChainDeterminesList(f, freeList[..], first, firstIdx, chain0);
        return None;
      }
      InUse(sizeMax, chain0, offset.value);
      var answer := ReleaseBlock(offset.value);
      pool.GiveUndoesTake((), sizeMax);
      forall k: int | BlockAt(k, itemSize, offset.value) ensures k == chain0[0] {
        OneBlockAtMost(k, chain0[0], itemSize, offset.value);
      }
      assert Abs() == pool;
      ChainDeterminesList(f, freeList[..], first, firstIdx, chain0);
      return Some(answer);
    }

    lemma InUse(n: nat, chain0: seq<nat>, offset: int)
      requires Valid() && chain0 != [] && offset == chain0[0] * itemSize && n == sizeMax
      requires Abs().live == Detached(n, chain0)[chain0[0] := ()] && chain0[0] < n
      ensures Verdict(offset, itemSize, sizeMax, Abs().live.Keys) == Success
    {
      assert BlockAt(chain0[0], itemSize, offset);
      InRange(chain0[0], sizeMax, itemSize);
    }

    static lemma GiveAttaches(n: nat, chain: seq<nat>, idx: nat)
      ensures Detached(n, [idx] + chain) == Detached(n, chain) - {idx}
    {
    }

    static lemma InRange(idx: int, sizeMax: int, itemSize: int)
      requires 0 < itemSize
      ensures idx * itemSize < 0 <==> idx < 0
      ensures sizeMax * itemSize <= idx * itemSize <==> sizeMax <= idx
    {
    }
  }
}
