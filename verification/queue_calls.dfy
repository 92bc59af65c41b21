/** What put, get and create do, in every case, and exactly when each case arises. */
module QueueCalls {
  import opened Wrappers
  import opened Seqs
  import opened KernelState
  import opened Syscalls
  import opened Invariants
  import opened Waking
  import opened Buffers
  import opened Outcomes

  // ---------- the outcomes of put ----------

  /** The history of queue `id` has one more put, of `v`, and no other history changes. */
  ghost predicate RecordsPut(s: State, s': State, id: int, v: int) {
    && id in s.chans
    && s'.chans == s.chans[id := s.chans[id].(puts := s.chans[id].puts + [v])]
  }

  ghost predicate RecordsGet(s: State, s': State, id: int, q: Request) {
    && id in s.chans
    && s'.chans == s.chans[id := s.chans[id].(gets := s.chans[id].gets + [q])]
  }

  /** `v` goes to the process that has waited longest for a value. */
  ghost predicate HandsOver(s: State, s': State, id: int, v: int)
    requires s.running.Some? && id in s.queues && s.queues[id].getters != []
  {
    var q := s.queues[id];
    var l := q.getters[0];
    && s'.queues == s.queues[id := q.(getters := q.getters[1..])]
    && TakesBack(s.ptrPool, s'.ptrPool, l.block)
    && Stores(s.mem, s'.mem, s.pcb[l.pcb].arg1, v)
    && Completes(s, s', Called(s.pcb[s.running.value], CALL_PUT, id, v), l.pcb)
    && RecordsPut(s, s', id, v)
    && s' == s.(queues := s'.queues, ptrPool := s'.ptrPool, mem := s'.mem, pcb := s'.pcb,
                ready := s'.ready, waiting := s'.waiting, chans := s'.chans)
  }

  /** `v` is buffered behind the values that were. */
  ghost predicate BuffersLast(s: State, s': State, id: int, v: int)
    requires s.running.Some? && id in s.queues
  {
    var r, q := s.running.value, s.queues[id];
    && (exists b :: HandsOut(s.itemPool, s'.itemPool, b, id)
                 && s'.queues == s.queues[id := q.(items := q.items + [Item(b, v)], size := q.size + 1)])
    && s'.pcb == s.pcb[r := Called(s.pcb[r], CALL_PUT, id, v).(retval := 0)]
    && RecordsPut(s, s', id, v)
    && s' == s.(queues := s'.queues, itemPool := s'.itemPool, pcb := s'.pcb, chans := s'.chans)
  }

  /** The caller waits as the last of the putters, its value saved with its call. */
  ghost predicate WaitsToPutLast(s: State, s': State, id: int, v: int)
    requires s.running.Some? && id in s.queues
  {
    var r, q := s.running.value, s.queues[id];
    && (exists b :: HandsOut(s.ptrPool, s'.ptrPool, b, WaiterOf(r))
                 && s'.queues == s.queues[id := q.(putters := q.putters + [Link(b, r)])])
    && Blocks(s, s', Called(s.pcb[r], CALL_PUT, id, v), true)
    && RecordsPut(s, s', id, v)
    && s' == s.(queues := s'.queues, ptrPool := s'.ptrPool, pcb := s'.pcb, running := s'.running,
                ready := s'.ready, waiting := s'.waiting, chans := s'.chans)
  }

  lemma StepPut(s: State, op: Op)
    requires op.Put? && Safe(s, op)
    ensures s.running.Some? && PutSafe(Trap(s, op))
    ensures var after := DoPut(Trap(s, op)); Step(s, op) == after.(chans := Observe(s, op, after))
  {
    hide DoPut, DoTick, PutSafe, Trap, Observe;
  }

  lemma StepGet(s: State, op: Op)
    requires op.Get? && Safe(s, op)
    ensures s.running.Some? && GetSafe(Trap(s, op))
    ensures var after := DoGet(Trap(s, op)); Step(s, op) == after.(chans := Observe(s, op, after))
  {
    hide DoGet, DoTick, GetSafe, Trap, Observe;
  }

  /** What the cases of put and get rely on. */
  ghost predicate QueueFacts(s: State, id: int)
    requires s.running.Some?
  {
    && s.pcb[s.running.value].status != Waiting && s.running.value !in s.ready && s.chans.Keys == s.queues.Keys
    && s.itemPool.Wf(MAX_NUM_BQITEMS) && s.ptrPool.Wf(MAX_NUM_PROCESSES)
    && (id in s.queues ==>
          var q := s.queues[id];
          && q.size == |q.items|
          && (q.getters != [] ==> WaiterFacts(s, q.getters[0]))
          && (q.putters != [] ==> q.items != [] && WaiterFacts(s, q.putters[0]))
          && (q.items != [] ==> q.getters == [] && ItemFacts(s, id, q.items[0])))
  }

  ghost predicate WaiterFacts(s: State, l: Link)
    requires s.running.Some?
  {
    l.pcb in s.waiting && l.pcb != s.running.value && l.block in s.ptrPool.live
  }

  ghost predicate ItemFacts(s: State, id: int, it: Item) {
    it.block in s.itemPool.live && s.itemPool.live[it.block] == id
  }

  lemma WaitersReady(s: State, id: int)
    requires ListsInv(s) && WaitersInv(s) && s.running.Some? && id in s.queues
    ensures var q := s.queues[id];
      && (q.getters != [] ==> WaiterFacts(s, q.getters[0]))
      && (q.putters != [] ==> WaiterFacts(s, q.putters[0]))
  {
    if s.queues[id].getters != [] { HeadWaiterBlocked(s, id, true); }
    if s.queues[id].putters != [] { HeadWaiterBlocked(s, id, false); }
  }

  lemma QueueReady(s: State, id: int)
    requires Inv(s) && s.running.Some?
    ensures QueueFacts(s, id)
  {
    hide PidsInv, TreeInv, WaitsInv, TimersInv, WaitersInv, NoLostWakeUp, PtrInv, ResourcesInv, FdsInv, Matches;
    hide WaiterFacts;
    if id in s.queues {
      WaitersReady(s, id);
      assert s.queues[id].items != [] ==> s.queues[id].items[0] in s.queues[id].items;
    }
  }

  lemma PutHandsOver(s: State, id: int, v: int)
    requires s.running.Some? && QueueFacts(s, id) && Safe(s, Put(id, v))
    requires id in s.queues && s.queues[id].getters != []
    ensures HandsOver(s, Step(s, Put(id, v)), id, v)
  {
    hide Step, Safe;
    StepPut(s, Put(id, v));
    RemoveIsWithout(s.waiting, s.queues[id].getters[0].pcb);
    hide Without;
  }

  lemma PutBuffers(s: State, id: int, v: int)
    requires s.running.Some? && QueueFacts(s, id) && Safe(s, Put(id, v)) && s.itemPool.free != []
    requires id in s.queues && s.queues[id].getters == [] && |s.queues[id].items| < s.queues[id].capacity
    ensures BuffersLast(s, Step(s, Put(id, v)), id, v)
  {
    hide Step, Safe;
    StepPut(s, Put(id, v));
    TakeHandsOut(s.itemPool, id, MAX_NUM_BQITEMS);
    hide HandsOut;
  }

  lemma PutWaits(s: State, id: int, v: int)
    requires s.running.Some? && QueueFacts(s, id) && Safe(s, Put(id, v))
    requires id in s.queues && s.queues[id].getters == [] && |s.queues[id].items| >= s.queues[id].capacity
    ensures WaitsToPutLast(s, Step(s, Put(id, v)), id, v)
  {
    hide Step, Safe;
    StepPut(s, Put(id, v));
    TakeHandsOut(s.ptrPool, WaiterOf(s.running.value), MAX_NUM_PROCESSES);
    hide HandsOut;
  }

  lemma PutRefuses(s: State, id: int, v: int)
    requires s.running.Some? && QueueFacts(s, id) && Safe(s, Put(id, v))
    requires id in s.queues ==>
      && s.queues[id].getters == [] && |s.queues[id].items| < s.queues[id].capacity
      && s.itemPool.free == []
    ensures OnlyReturns(s, Step(s, Put(id, v)), Called(s.pcb[s.running.value], CALL_PUT, id, v),
                        if id in s.queues then ESYSCALL_NOT_IMPLEMENTED else ERESOURCENOFD)
  {
    hide Step, Safe;
    StepPut(s, Put(id, v));
  }

  /** What a put does, for every queue id and value: one of these, and which one. */
  lemma PutExactly(s: State, id: int, v: int)
    requires Inv(s) && s.running.Some? && Safe(s, Put(id, v))
    ensures var s', p := Step(s, Put(id, v)), Called(s.pcb[s.running.value], CALL_PUT, id, v);
      if id !in s.queues then OnlyReturns(s, s', p, ERESOURCENOFD)
      else if s.queues[id].getters != [] then HandsOver(s, s', id, v)
      else if |s.queues[id].items| >= s.queues[id].capacity then WaitsToPutLast(s, s', id, v)
      else if |s.itemPool.live| < MAX_NUM_BQITEMS then BuffersLast(s, s', id, v)
      else OnlyReturns(s, s', p, ESYSCALL_NOT_IMPLEMENTED)
  {
    hide Inv, Step, Safe, OnlyReturns, HandsOver, WaitsToPutLast, BuffersLast, Called;
    QueueReady(s, id);
    RoomExactly(s.itemPool, MAX_NUM_BQITEMS);
    if id !in s.queues {
      PutRefuses(s, id, v);
    } else if s.queues[id].getters != [] {
      PutHandsOver(s, id, v);
    } else if |s.queues[id].items| >= s.queues[id].capacity {
      PutWaits(s, id, v);
    } else if |s.itemPool.live| < MAX_NUM_BQITEMS {
      PutBuffers(s, id, v);
    } else {
      PutRefuses(s, id, v);
    }
  }

  // ---------- the outcomes of get ----------

  ghost predicate RecordsGetOf(s: State, s': State, id: int, out: int)
    requires s.running.Some?
  {
    RecordsGet(s, s', id, Request(s.pcb[s.running.value].pid, out))
  }

  /** The caller is given the first value of the buffer, which nobody was waiting to fill. */
  ghost predicate TakesFirst(s: State, s': State, id: int, out: int)
    requires s.running.Some? && id in s.queues && s.queues[id].items != []
  {
    var r, q := s.running.value, s.queues[id];
    && s'.queues == s.queues[id := q.(items := q.items[1..], size := q.size - 1)]
    && TakesBack(s.itemPool, s'.itemPool, q.items[0].block)
    && Stores(s.mem, s'.mem, out, q.items[0].value)
    && s'.pcb == s.pcb[r := Called(s.pcb[r], CALL_GET, id, out).(retval := 0)]
    && RecordsGetOf(s, s', id, out)
    && s' == s.(queues := s'.queues, itemPool := s'.itemPool, mem := s'.mem, pcb := s'.pcb, chans := s'.chans)
  }

  /** The caller is given the first value of the buffer, and the value of the first putter, whose
      call ends, goes behind the rest, into the same block. */
  ghost predicate TakesAndRefills(s: State, s': State, id: int, out: int)
    requires s.running.Some? && id in s.queues && s.queues[id].items != [] && s.queues[id].putters != []
  {
    var q := s.queues[id];
    var l := q.putters[0];
    && s'.queues == s.queues[id :=
         q.(items := q.items[1..] + [Item(q.items[0].block, s.pcb[l.pcb].arg1)], putters := q.putters[1..])]
    && TakesBack(s.ptrPool, s'.ptrPool, l.block)
    && Stores(s.mem, s'.mem, out, q.items[0].value)
    && Completes(s, s', Called(s.pcb[s.running.value], CALL_GET, id, out), l.pcb)
    && RecordsGetOf(s, s', id, out)
    && s' == s.(queues := s'.queues, ptrPool := s'.ptrPool, mem := s'.mem, pcb := s'.pcb,
                ready := s'.ready, waiting := s'.waiting, chans := s'.chans)
  }

  /** The caller waits as the last of the getters, and where to store is saved with its call. */
  ghost predicate WaitsToGetLast(s: State, s': State, id: int, out: int)
    requires s.running.Some? && id in s.queues
  {
    var r, q := s.running.value, s.queues[id];
    && (exists b :: HandsOut(s.ptrPool, s'.ptrPool, b, WaiterOf(r))
                 && s'.queues == s.queues[id := q.(getters := q.getters + [Link(b, r)])])
    && Blocks(s, s', Called(s.pcb[r], CALL_GET, id, out), true)
    && RecordsGetOf(s, s', id, out)
    && s' == s.(queues := s'.queues, ptrPool := s'.ptrPool, pcb := s'.pcb, running := s'.running,
                ready := s'.ready, waiting := s'.waiting, chans := s'.chans)
  }

  lemma GetTakes(s: State, id: int, out: int)
    requires s.running.Some? && QueueFacts(s, id) && Safe(s, Get(id, out))
    requires id in s.queues && s.queues[id].items != [] && s.queues[id].putters == []
    ensures TakesFirst(s, Step(s, Get(id, out)), id, out)
  {
    hide Step, Safe;
    StepGet(s, Get(id, out));
  }

  /** The state after the refill, before the caller has its result. */
  lemma RefilledIs(s: State, id: int, out: int)
    requires id in s.queues && s.queues[id].items != [] && s.queues[id].putters != []
    requires var b := s.queues[id].items[0].block; b in s.itemPool.live && s.itemPool.live[b] == id
    ensures var q := s.queues[id];
      var l := q.putters[0];
      Refilled(s, id, out) ==
        s.(queues := s.queues[id :=
             q.(items := q.items[1..] + [Item(q.items[0].block, s.pcb[l.pcb].arg1)], putters := q.putters[1..])],
           ptrPool := s.ptrPool.Give(l.block), mem := Write(s.mem, out, q.items[0].value),
           pcb := s.pcb[l.pcb := s.pcb[l.pcb].(status := Ready, retval := 0)],
           ready := s.ready + [l.pcb], waiting := Remove(s.waiting, l.pcb))
  {
    hide Remove;
    TakeUndoesGive(s.itemPool, s.queues[id].items[0].block);
  }

  lemma GetTakesAndRefills(s: State, id: int, out: int)
    requires s.running.Some? && QueueFacts(s, id) && Safe(s, Get(id, out))
    requires id in s.queues && s.queues[id].items != [] && s.queues[id].putters != []
    ensures TakesAndRefills(s, Step(s, Get(id, out)), id, out)
  {
    hide Step, Safe, Refilled, Remove, Refill, TakeItem, HandFromPutter;
    var t := Trap(s, Get(id, out));
    StepGet(s, Get(id, out));
    RefilledIs(t, id, out);
    assert DoGet(t) == Return(Refilled(t, id, out), 0) by { GetRefillBranch(t, id, out); }
    hide DoGet;
    RemoveIsWithout(s.waiting, s.queues[id].putters[0].pcb);
    hide Without;
  }

  lemma GetRefillBranch(s: State, id: int, out: int)
    requires s.running.Some? && s.pcb[s.running.value].arg0 == id && s.pcb[s.running.value].arg1 == out
    requires id in s.queues && s.queues[id].items != [] && GetSafe(s)
    ensures Refilled(s, id, out).running == s.running && DoGet(s) == Return(Refilled(s, id, out), 0)
  {
    hide Remove;
  }

  lemma GetWaits(s: State, id: int, out: int)
    requires s.running.Some? && QueueFacts(s, id) && Safe(s, Get(id, out))
    requires id in s.queues && s.queues[id].items == []
    ensures WaitsToGetLast(s, Step(s, Get(id, out)), id, out)
  {
    hide Step, Safe;
    StepGet(s, Get(id, out));
    TakeHandsOut(s.ptrPool, WaiterOf(s.running.value), MAX_NUM_PROCESSES);
    hide HandsOut;
  }

  lemma GetRefuses(s: State, id: int, out: int)
    requires s.running.Some? && QueueFacts(s, id) && Safe(s, Get(id, out)) && id !in s.queues
    ensures OnlyReturns(s, Step(s, Get(id, out)), Called(s.pcb[s.running.value], CALL_GET, id, out), ERESOURCENOFD)
  {
    hide Step, Safe;
    StepGet(s, Get(id, out));
  }

  /** What a get does, for every queue id and address: one of these, and which one. */
  lemma GetExactly(s: State, id: int, out: int)
    requires Inv(s) && s.running.Some? && Safe(s, Get(id, out))
    ensures var s' := Step(s, Get(id, out));
      if id !in s.queues then OnlyReturns(s, s', Called(s.pcb[s.running.value], CALL_GET, id, out), ERESOURCENOFD)
      else if s.queues[id].items == [] then WaitsToGetLast(s, s', id, out)
      else if s.queues[id].putters == [] then TakesFirst(s, s', id, out)
      else TakesAndRefills(s, s', id, out)
  {
    hide Inv, Step, Safe, OnlyReturns, TakesFirst, TakesAndRefills, WaitsToGetLast, Called;
    QueueReady(s, id);
    if id !in s.queues {
      GetRefuses(s, id, out);
    } else if s.queues[id].items == [] {
      GetWaits(s, id, out);
    } else if s.queues[id].putters == [] {
      GetTakes(s, id, out);
    } else {
      GetTakesAndRefills(s, id, out);
    }
  }

  // ---------- create ----------

  /** There is a new queue `id`, empty, with nobody waiting on it, in a block that was free. */
  ghost predicate MakesQueue(s: State, s': State, id: int, cap: int)
    requires s.running.Some?
  {
    var r := s.running.value;
    && (exists b :: HandsOut(s.bqPool, s'.bqPool, b, id)
                 && s'.queues == s.queues[id := Queue(b, id, cap, 0, [], [], [])])
    && s'.pcb == s.pcb[r := Called(s.pcb[r], CALL_CREATE, id, cap).(retval := 0)]
    && s'.chans == s.chans[id := Chan([], [])]
    && s' == s.(queues := s'.queues, bqPool := s'.bqPool, pcb := s'.pcb, chans := s'.chans)
  }

  /** A queue with this id and capacity can be made. */
  predicate Creatable(s: State, id: int, cap: int) {
    0 < cap && id !in s.queues && |s.bqPool.live| < MAX_NUM_BQUEUES
  }

  lemma StepCreate(s: State, op: Op)
    requires s.running.Some? && op.Create?
    ensures Safe(s, op)
    ensures var after := DoCreate(Trap(s, op)); Step(s, op) == after.(chans := Observe(s, op, after))
  {
    hide DoCreate, DoTick, Trap, Observe;
  }

  lemma CreateReady(s: State)
    requires Inv(s) && s.running.Some?
    ensures s.bqPool.Wf(MAX_NUM_BQUEUES) && s.pcb[s.running.value].status != Waiting
  {
  }

  /** Create returns 0 exactly when the capacity is positive, the id is free and a block is left.
      It then makes the queue asked for; otherwise it only returns its error. */
  lemma CreateExactly(s: State, id: int, cap: int)
    requires Inv(s) && s.running.Some?
    ensures Safe(s, Create(id, cap))
    ensures var s', p := Step(s, Create(id, cap)), Called(s.pcb[s.running.value], CALL_CREATE, id, cap);
      && (s'.pcb[s.running.value].retval == 0 <==> Creatable(s, id, cap))
      && if Creatable(s, id, cap) then MakesQueue(s, s', id, cap)
         else OnlyReturns(s, s', p, if cap <= 0 then ESYSCALL_ARGUMENT_OUT_OF_BOUNDS
                                    else if id in s.queues then EEXIST
                                    else ESYSCALL_NOT_IMPLEMENTED)
  {
    hide Inv, Step, Safe;
    StepCreate(s, Create(id, cap));
    CreateReady(s);
    RoomExactly(s.bqPool, MAX_NUM_BQUEUES);
    if s.bqPool.free != [] { TakeHandsOut(s.bqPool, id, MAX_NUM_BQUEUES); }
    hide HandsOut;
  }
}
