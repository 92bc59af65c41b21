/** Creating and deleting queues: what is allocated, what is given back, and when a delete is
    refused. */
module QueueLife {
  import opened Wrappers
  import opened KernelState
  import opened Syscalls
  import opened Invariants
  import opened Buffers
  import opened Outcomes

  /** Nobody waits on queue `id`, which exists. */
  predicate Deletable(s: State, id: int) {
    id in s.queues && s.queues[id].getters == [] && s.queues[id].putters == []
  }

  lemma StepDelete(s: State, op: Op)
    requires s.running.Some? && op.Delete?
    ensures Safe(s, op)
    ensures var after := DoDelete(Trap(s, op));
      Step(s, op) == after.(chans := Observe(s, op, after))
  {
    hide DoDelete, DoTick, Observe;
  }

  /** The blocks given back are those of the queue and of the items in its buffer. */
  ghost predicate GivesBack(s: State, s': State, id: int)
    requires id in s.queues
  {
    && s'.queues == s.queues - {id}
    && s'.bqPool == s.bqPool.Give(s.queues[id].block)
    && (forall b :: b in s'.itemPool.live <==> b in s.itemPool.live && s.itemPool.live[b] != id)
    && |s'.itemPool.free| == |s.itemPool.free| + |s.queues[id].items|
  }

  /** The queue and its history are gone, the call returns 0, and nothing else changes but what
      was given back. */
  ghost predicate DeletesOnly(s: State, s': State, id: int)
    requires s.running.Some? && id in s.queues
  {
    var r := s.running.value;
    && TakesBack(s.bqPool, s'.bqPool, s.queues[id].block)
    && s'.pcb == s.pcb[r := Called1(s.pcb[r], CALL_DELETE, id).(retval := 0)]
    && s'.chans == s.chans - {id}
    && s' == s.(queues := s'.queues, bqPool := s'.bqPool, itemPool := s'.itemPool, pcb := s'.pcb, chans := s'.chans)
  }

  lemma ItemsOf(s: State, id: int)
    requires StorageInv(s) && id in s.queues
    ensures forall b :: HoldsBlock(s.queues[id].items, b) <==> b in s.itemPool.live && s.itemPool.live[b] == id
  {
    forall b | HoldsBlock(s.queues[id].items, b)
      ensures b in s.itemPool.live && s.itemPool.live[b] == id
    {
      var k :| 0 <= k < |s.queues[id].items| && s.queues[id].items[k].block == b;
      assert s.queues[id].items[k] in s.queues[id].items;
    }
  }

  lemma WithoutGivesBack(s: State, id: int)
    requires StorageInv(s) && id in s.queues && s.itemPool.Wf(MAX_NUM_BQITEMS)
    ensures GivesBack(s, WithoutQueue(s, id), id) && s.queues[id].block in s.bqPool.live
  {
    hide HoldsBlock;
    assert forall i :: i in s.queues[id].items ==> i.block in s.itemPool.live;
    GiveItemsFrees(s.itemPool, s.queues[id].items, MAX_NUM_BQITEMS);
    ItemsOf(s, id);
  }

  lemma TrapStorage(s: State, op: Op)
    requires Inv(s) && s.running.Some? && !op.Tick?
    ensures StorageInv(Trap(s, op)) && s.itemPool.Wf(MAX_NUM_BQITEMS)
    ensures s.pcb[s.running.value].status != Waiting
  {
  }

  /** A delete succeeds exactly when the queue exists and nobody waits on it. It then gives
      back the queue and the items it holds and no other block; otherwise nothing changes. */
  lemma DeleteExactly(s: State, id: int)
    requires Inv(s) && s.running.Some?
    ensures Safe(s, Delete(id))
    ensures var s' := Step(s, Delete(id));
      var r := s.running.value;
      && (s'.pcb[r].retval == 0 <==> Deletable(s, id))
      && (Deletable(s, id) ==> GivesBack(s, s', id) && DeletesOnly(s, s', id))
      && (!Deletable(s, id) ==>
            OnlyReturns(s, s', Called1(s.pcb[r], CALL_DELETE, id),
                        if id in s.queues then ERESOURCEINUSE else ERESOURCENOFD))
  {
    hide Inv, Step, Safe, StorageInv, GiveItems, GivesBack, WithoutQueue;
    var op := Delete(id);
    StepDelete(s, op);
    TrapStorage(s, op);
    DeleteOutcomes(s, id);
  }

  lemma DeleteOutcomes(s: State, id: int)
    requires s.running.Some? && StorageInv(Trap(s, Delete(id))) && s.itemPool.Wf(MAX_NUM_BQITEMS)
    requires s.pcb[s.running.value].status != Waiting
    ensures var op := Delete(id);
      var r := s.running.value;
      var after := DoDelete(Trap(s, op));
      var s' := after.(chans := Observe(s, op, after));
      && (s'.pcb[r].retval == 0 <==> Deletable(s, id))
      && (Deletable(s, id) ==> GivesBack(s, s', id) && DeletesOnly(s, s', id))
      && (!Deletable(s, id) ==>
            OnlyReturns(s, s', Called1(s.pcb[r], CALL_DELETE, id),
                        if id in s.queues then ERESOURCEINUSE else ERESOURCENOFD))
  {
    hide StorageInv, GiveItems;
    var t := Trap(s, Delete(id));
    if Deletable(s, id) {
      WithoutGivesBack(t, id);
      assert DoDelete(t) == Return(WithoutQueue(t, id), 0);
    }
  }
}
