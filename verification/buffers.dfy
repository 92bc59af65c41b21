/** Queue registry and buffers: creating, deleting, filling, draining and handing on. */
module Buffers {
  import opened Seqs
  import opened Pools
  import opened KernelState
  import opened Syscalls
  import opened Invariants
  import opened Frames
  import opened Waking

  // ---------- lists of items ----------

  lemma ItemJoins(items: seq<Item>, it: Item)
    requires UniqueBlocks(items) && !HoldsBlock(items, it.block)
    ensures UniqueBlocks(items + [it])
    ensures forall b :: HoldsBlock(items + [it], b) <==> HoldsBlock(items, b) || b == it.block
  {
    var items' := items + [it];
    assert items'[|items|] == it;
    forall b | HoldsBlock(items, b)
      ensures HoldsBlock(items', b)
    {
      var i :| 0 <= i < |items| && items[i].block == b;
      assert items'[i].block == b;
    }
    forall b | HoldsBlock(items', b) && b != it.block
      ensures HoldsBlock(items, b)
    {
      var i :| 0 <= i < |items'| && items'[i].block == b;
      assert items[i].block == b;
    }
  }

  lemma HeadItemLeaves(items: seq<Item>)
    requires UniqueBlocks(items) && items != []
    ensures items[0] in items
    ensures UniqueBlocks(items[1..]) && !HoldsBlock(items[1..], items[0].block)
    ensures forall b :: HoldsBlock(items, b) && b != items[0].block ==> HoldsBlock(items[1..], b)
    ensures forall i :: i in items[1..] <==> i in items && i != items[0]
  {
    var rest := items[1..];
    assert items == [items[0]] + rest;
    assert forall k :: 0 <= k < |rest| ==> rest[k] == items[k + 1];
    forall b | HoldsBlock(items, b) && b != items[0].block
      ensures HoldsBlock(rest, b)
    {
      var i :| 0 <= i < |items| && items[i].block == b;
      assert rest[i - 1].block == b;
    }
  }

  // ---------- hand-off to a waiting getter ----------

  lemma HandToGetterLeaves(s: State, id: int, v: int)
    requires ListsInv(s) && WaitersInv(s) && id in s.queues && s.queues[id].getters != []
    ensures var s' := HandToGetter(s, id, v);
      && LeavesQueue(s, s', id, true) && Leaves(s, s', HeadWaiter(s, id, true).pcb) && ListsInv(s')
  {
    var q := s.queues[id];
    var l := q.getters[0];
    HeadWaiterBlocked(s, id, true);
    var s1 := SetQueue(s, id, q.(getters := q.getters[1..])).(ptrPool := s.ptrPool.Give(l.block));
    var s2 := s1.(mem := Write(s1.mem, s1.pcb[l.pcb].arg1, v));
    WakeLeaves(s, SetPcb(s2, l.pcb, s2.pcb[l.pcb].(retval := 0)), l.pcb);
  }

  lemma HandToGetterData(s: State, s': State, id: int)
    requires QueuesInv(s) && StorageInv(s) && id in s.queues && s.queues[id].getters != []
    requires s'.queues == s.queues[id := s.queues[id].(getters := s.queues[id].getters[1..])]
    requires s'.bqPool == s.bqPool && s'.itemPool == s.itemPool
    ensures QueuesInv(s') && StorageInv(s')
  {
  }

  lemma HandToGetterKeeps(s: State, id: int, v: int)
    requires CoreInv(s) && id in s.queues && s.queues[id].getters != []
    ensures CoreInv(HandToGetter(s, id, v))
  {
    var s' := HandToGetter(s, id, v);
    HandToGetterLeaves(s, id, v);
    QueueLeavesProc(s, s', id, true);
    HandToGetterData(s, s', id);
    LeavesFiles(s, s', HeadWaiter(s, id, true).pcb);
    s.ptrPool.GiveKeeps(s.queues[id].getters[0].block, MAX_NUM_PROCESSES);
  }

  // ---------- changes that concern no waiter ----------

  ghost predicate OnlyBuffers(s: State, s': State) {
    && s' == s.(queues := s'.queues, itemPool := s'.itemPool, bqPool := s'.bqPool, mem := s'.mem)
    && SameWaiters(s.queues, s'.queues)
  }

  lemma BuffersFrame(s: State, s': State)
    requires ListsInv(s) && OnlyBuffers(s, s')
    ensures ListsInv(s') && SameFamily(s, s') && SameBlocked(s, s') && SameFiles(s, s')
  {
  }

  lemma BuffersKeep(s: State, s': State)
    requires ProcInv(s) && ResourcesInv(s) && FdsInv(s) && OnlyBuffers(s, s')
    ensures ProcInv(s') && ResourcesInv(s') && FdsInv(s')
  {
    BuffersFrame(s, s');
    FrameProc(s, s');
  }

  // ---------- a value enters the buffer ----------

  lemma AddItemData(s: State, id: int, v: int)
    requires QueuesInv(s) && StorageInv(s) && s.itemPool.Wf(MAX_NUM_BQITEMS)
    requires id in s.queues && s.itemPool.free != []
    requires s.queues[id].getters == [] && s.queues[id].size < s.queues[id].capacity
    ensures QueuesInv(AddItem(s, id, v)) && StorageInv(AddItem(s, id, v))
  {
    var q := s.queues[id];
    var it := Item(s.itemPool.free[0], v);
    assert it.block in s.itemPool.free;
    assert !HoldsBlock(q.items, it.block);
    ItemJoins(q.items, it);
  }

  lemma AddItemOnly(s: State, id: int, v: int)
    requires id in s.queues
    ensures OnlyBuffers(s, AddItem(s, id, v))
  {
  }

  lemma AddItemKeeps(s: State, id: int, v: int)
    requires CoreInv(s) && id in s.queues && s.itemPool.free != []
    requires s.queues[id].getters == [] && s.queues[id].size < s.queues[id].capacity
    ensures CoreInv(AddItem(s, id, v))
  {
    AddItemOnly(s, id, v);
    BuffersKeep(s, AddItem(s, id, v));
    AddItemData(s, id, v);
    s.itemPool.TakeKeeps(id, MAX_NUM_BQITEMS);
  }

  // ---------- a value leaves the buffer ----------

  lemma TakeItemData(s: State, id: int, out: int)
    requires QueuesInv(s) && StorageInv(s) && id in s.queues
    requires s.queues[id].items != [] && s.queues[id].putters == []
    ensures QueuesInv(TakeItem(s, id, out)) && StorageInv(TakeItem(s, id, out))
  {
    var q := s.queues[id];
    HeadItemLeaves(q.items);
    var s' := TakeItem(s, id, out);
    assert forall i :: i in q.items[1..] ==> HoldsBlock(q.items[1..], i.block);
  }

  lemma TakeItemOnly(s: State, id: int, out: int)
    requires id in s.queues && s.queues[id].items != []
    ensures OnlyBuffers(s, TakeItem(s, id, out))
  {
  }

  lemma TakeItemKeeps(s: State, id: int, out: int)
    requires CoreInv(s) && id in s.queues
    requires s.queues[id].items != [] && s.queues[id].putters == []
    ensures CoreInv(TakeItem(s, id, out))
  {
    TakeItemOnly(s, id, out);
    BuffersKeep(s, TakeItem(s, id, out));
    TakeItemData(s, id, out);
    s.itemPool.GiveKeeps(s.queues[id].items[0].block, MAX_NUM_BQITEMS);
  }

  // ---------- a value leaves a full buffer and a waiting putter fills the gap ----------

  /** The pool hands out the block it was just given: giving back a block in use and asking
      for one again for the same purpose leaves the pool as it was. */
  lemma TakeUndoesGive(p: Pool<nat, int>, b: nat)
    requires b in p.live
    ensures p.Give(b).free != [] && p.Give(b).free[0] == b
    ensures p.Give(b).Take(p.live[b]) == p
  {
    assert ([b] + p.free)[1..] == p.free;
    assert (p.live - {b})[b := p.live[b]] == p.live;
  }

  function Refilled(s: State, id: int, out: int): State
    requires id in s.queues && s.queues[id].items != []
  {
    Refill(TakeItem(s, id, out), id)
  }

  /** The refill never finds the item pool empty: the value of the first blocked putter goes
      into the very block that the value just taken has left. */
  lemma RefillReuses(s: State, id: int, out: int)
    requires StorageInv(s) && id in s.queues && s.queues[id].items != [] && s.queues[id].putters != []
    ensures TakeItem(s, id, out).itemPool.free != []
    ensures var q := s.queues[id];
      && Refilled(s, id, out).itemPool == s.itemPool
      && Refilled(s, id, out).queues == s.queues[id :=
           q.(items := q.items[1..] + [Item(q.items[0].block, s.pcb[q.putters[0].pcb].arg1)],
              putters := q.putters[1..])]
  {
    var q := s.queues[id];
    assert q.items[0] in q.items;
    TakeUndoesGive(s.itemPool, q.items[0].block);
  }

  lemma RefillLeaves(s: State, id: int, out: int)
    requires ListsInv(s) && WaitersInv(s) && StorageInv(s)
    requires id in s.queues && s.queues[id].items != [] && s.queues[id].putters != []
    ensures var s' := Refilled(s, id, out);
      && LeavesQueue(s, s', id, false) && Leaves(s, s', HeadWaiter(s, id, false).pcb) && ListsInv(s')
  {
    hide NoDup, WaitersInv, StorageInv;
    var s0 := TakeItem(s, id, out);
    var p := s.queues[id].putters[0].pcb;
    HeadWaiterBlocked(s, id, false);
    RefillReuses(s, id, out);
    var s1 := AddItem(DropPutter(s0, id), id, s0.pcb[p].arg1);
    WakeLeaves(s, SetPcb(s1, p, s1.pcb[p].(retval := 0)), p);
  }

  lemma RefillData(s: State, s': State, id: int)
    requires QueuesInv(s) && StorageInv(s)
    requires id in s.queues && s.queues[id].items != [] && s.queues[id].putters != []
    requires var q := s.queues[id];
      s'.queues == s.queues[id :=
        q.(items := q.items[1..] + [Item(q.items[0].block, s.pcb[q.putters[0].pcb].arg1)], putters := q.putters[1..])]
    requires s'.bqPool == s.bqPool && s'.itemPool == s.itemPool
    ensures QueuesInv(s') && StorageInv(s')
  {
    var q := s.queues[id];
    HeadItemLeaves(q.items);
    ItemJoins(q.items[1..], Item(q.items[0].block, s.pcb[q.putters[0].pcb].arg1));
  }

  lemma RefillKeeps(s: State, id: int, out: int)
    requires CoreInv(s) && id in s.queues && s.queues[id].items != [] && s.queues[id].putters != []
    ensures CoreInv(Refilled(s, id, out))
  {
    var s' := Refilled(s, id, out);
    RefillLeaves(s, id, out);
    RefillReuses(s, id, out);
    QueueLeavesProc(s, s', id, false);
    RefillData(s, s', id);
    LeavesFiles(s, s', HeadWaiter(s, id, false).pcb);
    s.ptrPool.GiveKeeps(s.queues[id].putters[0].block, MAX_NUM_PROCESSES);
  }

  // ---------- the registry ----------

  function WithQueue(s: State, id: int, cap: int): State
    requires s.bqPool.free != []
  {
    s.(queues := s.queues[id := Queue(s.bqPool.free[0], id, cap, 0, [], [], [])], bqPool := s.bqPool.Take(id))
  }

  lemma WithQueueOnly(s: State, id: int, cap: int)
    requires id !in s.queues && s.bqPool.free != []
    ensures OnlyBuffers(s, WithQueue(s, id, cap))
  {
  }

  lemma CreateData(s: State, id: int, cap: int)
    requires QueuesInv(s) && StorageInv(s) && s.bqPool.Wf(MAX_NUM_BQUEUES)
    requires id !in s.queues && 0 < cap && s.bqPool.free != []
    ensures QueuesInv(WithQueue(s, id, cap)) && StorageInv(WithQueue(s, id, cap))
  {
    assert s.bqPool.free[0] in s.bqPool.free;
  }

  lemma CreateKeeps(s: State, id: int, cap: int)
    requires CoreInv(s) && id !in s.queues && 0 < cap && s.bqPool.free != []
    ensures CoreInv(WithQueue(s, id, cap))
  {
    WithQueueOnly(s, id, cap);
    BuffersKeep(s, WithQueue(s, id, cap));
    CreateData(s, id, cap);
    s.bqPool.TakeKeeps(id, MAX_NUM_BQUEUES);
  }

  function WithoutQueue(s: State, id: int): State
    requires id in s.queues
  {
    s.(queues := s.queues - {id}, itemPool := GiveItems(s.itemPool, s.queues[id].items),
       bqPool := s.bqPool.Give(s.queues[id].block))
  }

  /** Deleting a queue gives back exactly the blocks of its items. */
  lemma {:induction false} GiveItemsFrees(p: Pool<nat, int>, items: seq<Item>, capacity: nat)
    requires p.Wf(capacity) && UniqueBlocks(items)
    requires forall i :: i in items ==> i.block in p.live
    ensures GiveItems(p, items).Wf(capacity)
    ensures forall b :: b in GiveItems(p, items).live <==> b in p.live && !HoldsBlock(items, b)
    ensures forall b :: b in GiveItems(p, items).live ==> GiveItems(p, items).live[b] == p.live[b]
    ensures |GiveItems(p, items).free| == |p.free| + |items|
    decreases |items|
  {
    if items != [] {
      HeadItemLeaves(items);
      p.GiveKeeps(items[0].block, capacity);
      assert forall i :: i in items[1..] ==> i.block != items[0].block by {
        assert forall i :: i in items[1..] ==> HoldsBlock(items[1..], i.block);
      }
      GiveItemsFrees(p.Give(items[0].block), items[1..], capacity);
      forall b | HoldsBlock(items[1..], b)
        ensures HoldsBlock(items, b)
      {
        var k :| 0 <= k < |items[1..]| && items[1..][k].block == b;
        assert items[k + 1].block == b;
      }
    }
  }

  lemma DeleteData(s: State, id: int)
    requires QueuesInv(s) && StorageInv(s) && id in s.queues && s.itemPool.Wf(MAX_NUM_BQITEMS)
    ensures QueuesInv(WithoutQueue(s, id)) && StorageInv(WithoutQueue(s, id))
    ensures WithoutQueue(s, id).itemPool.Wf(MAX_NUM_BQITEMS)
  {
    GiveItemsFrees(s.itemPool, s.queues[id].items, MAX_NUM_BQITEMS);
    assert forall i :: i in s.queues[id].items ==> HoldsBlock(s.queues[id].items, i.block);
  }

  lemma WithoutQueueOnly(s: State, id: int)
    requires id in s.queues && Unwaited(s.queues[id])
    ensures OnlyBuffers(s, WithoutQueue(s, id))
  {
  }

  lemma DeleteKeeps(s: State, id: int)
    requires CoreInv(s) && id in s.queues && Unwaited(s.queues[id])
    ensures CoreInv(WithoutQueue(s, id))
  {
    WithoutQueueOnly(s, id);
    BuffersKeep(s, WithoutQueue(s, id));
    DeleteData(s, id);
    s.bqPool.GiveKeeps(s.queues[id].block, MAX_NUM_BQUEUES);
  }
}
