/** The main invariant: it holds at boot, every step keeps it, so it holds in every
    reachable state. */
module Steps {
  import opened Wrappers
  import opened Pools
  import opened KernelState
  import opened Syscalls
  import opened Invariants
  import opened Frames
  import opened Scheduling
  import opened Buffers
  import opened Blocking
  import opened Channels
  import opened Bystanders
  import opened Preservation

  // ---------- what a call on a queue does to the history ----------

  lemma RefusedCall(s: State, code: int)
    requires ListsInv(s) && WaitersInv(s) && ChansInv(s) && s.running.Some? && code != 0
    ensures var s' := Return(s, code);
      && !Accepted(s', s.running.value) && s'.queues == s.queues && s'.mem == s.mem && s'.chans == s.chans
      && ChansInv(s')
  {
    FrameChans(s, Return(s, code));
  }

  lemma BlockedCall(s: State, id: int, get: bool)
    requires ListsInv(s) && s.running.Some? && id in s.queues && s.ptrPool.free != []
    ensures Accepted(PickNext(Joined(s, id, get), true), s.running.value)
  {
  }

  lemma PutOutcome(s: State, id: int, v: int)
    requires CoreInv(s) && ChansInv(s) && s.running.Some? && PutSafe(s)
    requires s.pcb[s.running.value].arg0 == id && s.pcb[s.running.value].arg1 == v
    ensures var s' := DoPut(s);
      if Accepted(s', s.running.value) then
        && id in s.chans && s'.queues.Keys == s.queues.Keys
        && ChansInv(PutResult(s, s', id, v))
        && Delivers(s, PutResult(s, s', id, v), s.chans[id], WithPut(s.chans[id], v))
      else
        s'.queues == s.queues && s'.mem == s.mem && s'.chans == s.chans && ChansInv(s')
  {
    hide ListsInv, PidsInv, TreeInv, WaitsInv, TimersInv, WaitersInv, NoLostWakeUp, PtrInv, PoolsInv;
    hide StorageInv, ResourcesInv, FdsInv, Matches, Delivers;
    if id !in s.queues {
      RefusedCall(s, ERESOURCENOFD);
    } else if s.queues[id].getters != [] {
      PutToGetter(s, id, v);
    } else if s.queues[id].size < s.queues[id].capacity {
      if s.itemPool.free == [] {
        RefusedCall(s, ESYSCALL_NOT_IMPLEMENTED);
      } else {
        PutToBuffer(s, id, v);
      }
    } else {
      BlockedCall(s, id, false);
      PutBlocked(s, id);
    }
  }

  lemma GetOutcome(s: State, id: int)
    requires CoreInv(s) && ChansInv(s) && s.running.Some? && GetSafe(s)
    requires s.pcb[s.running.value].arg0 == id
    ensures var s' := DoGet(s);
      var p := s.pcb[s.running.value];
      if Accepted(s', s.running.value) then
        && id in s.chans && s'.queues.Keys == s.queues.Keys
        && ChansInv(GetResult(s, s', id))
        && Delivers(s, GetResult(s, s', id), s.chans[id], WithGet(s.chans[id], Request(p.pid, p.arg1)))
      else
        s'.queues == s.queues && s'.mem == s.mem && s'.chans == s.chans && ChansInv(s')
  {
    hide ListsInv, PidsInv, TreeInv, WaitsInv, TimersInv, WaitersInv, NoLostWakeUp, PtrInv, PoolsInv;
    hide StorageInv, ResourcesInv, FdsInv, Matches, Delivers;
    if id !in s.queues {
      RefusedCall(s, ERESOURCENOFD);
    } else if s.queues[id].items != [] {
      if s.queues[id].putters == [] {
        GetFromBuffer(s, id);
      } else {
        GetAndRefill(s, id);
      }
    } else {
      BlockedCall(s, id, true);
      GetBlocked(s, id);
    }
  }

  lemma CreateOutcome(s: State, id: int, cap: int)
    requires CoreInv(s) && ChansInv(s) && s.running.Some?
    requires s.pcb[s.running.value].arg0 == id && s.pcb[s.running.value].arg1 == cap
    ensures var s' := DoCreate(s);
      && s'.mem == s.mem
      && (Accepted(s', s.running.value) ==> id !in s.queues && ChansInv(s'.(chans := s.chans[id := Chan([], [])])))
      && (!Accepted(s', s.running.value) ==> s'.chans == s.chans && ChansInv(s'))
  {
    if cap <= 0 {
      RefusedCall(s, ESYSCALL_ARGUMENT_OUT_OF_BOUNDS);
    } else if id in s.queues {
      RefusedCall(s, EEXIST);
    } else if s.bqPool.free == [] {
      RefusedCall(s, ESYSCALL_NOT_IMPLEMENTED);
    } else {
      CreateChans(s, id, cap);
    }
  }

  lemma NewQueueMatches(t: PcbTable, q: Queue)
    requires q.items == [] && q.getters == [] && q.putters == []
    ensures Matches(t, q, Chan([], []))
  {
  }

  lemma CreateChans(s: State, id: int, cap: int)
    requires ListsInv(s) && ChansInv(s) && s.running.Some? && id !in s.queues && s.bqPool.free != []
    ensures ChansInv(Return(WithQueue(s, id, cap), 0).(chans := s.chans[id := Chan([], [])]))
  {
    hide Matches;
    var s' := Return(WithQueue(s, id, cap), 0).(chans := s.chans[id := Chan([], [])]);
    assert forall x: Ref :: SameRequest(s.pcb[x], s'.pcb[x]);
    forall i | i in s'.queues
      ensures Matches(s'.pcb, s'.queues[i], s'.chans[i])
    {
      if i == id {
        NewQueueMatches(s'.pcb, s'.queues[i]);
      } else {
        FrameMatches(s.pcb, s'.pcb, s.queues[i], s.chans[i]);
      }
    }
  }

  lemma DeleteOutcome(s: State, id: int)
    requires CoreInv(s) && ChansInv(s) && s.running.Some?
    requires s.pcb[s.running.value].arg0 == id
    ensures var s' := DoDelete(s);
      && s'.mem == s.mem
      && (Accepted(s', s.running.value) ==> ChansInv(s'.(chans := s.chans - {id})))
      && (!Accepted(s', s.running.value) ==> s'.chans == s.chans && ChansInv(s'))
  {
    if id !in s.queues {
      RefusedCall(s, ERESOURCENOFD);
    } else if s.queues[id].getters != [] || s.queues[id].putters != [] {
      RefusedCall(s, ERESOURCEINUSE);
    } else {
      DeleteChans(s, id);
    }
  }

  lemma DeleteChans(s: State, id: int)
    requires ChansInv(s) && s.running.Some? && id in s.queues
    ensures ChansInv(Return(WithoutQueue(s, id), 0).(chans := s.chans - {id}))
  {
    hide Matches;
    var s' := Return(WithoutQueue(s, id), 0).(chans := s.chans - {id});
    forall i | i in s'.queues
      ensures Matches(s'.pcb, s'.queues[i], s'.chans[i])
    {
      FrameMatches(s.pcb, s'.pcb, s.queues[i], s.chans[i]);
    }
  }

  // ---------- the history after a step ----------

  lemma TrapChans(s: State, op: Op)
    requires CoreInv(s) && ChansInv(s) && s.running.Some? && !op.Tick?
    ensures CoreInv(Trap(s, op)) && ChansInv(Trap(s, op))
  {
    TrapKeeps(s, op);
    TrapBystander(s, op);
    FrameChans(s, Trap(s, op));
  }

  lemma OtherCallChans(s: State, op: Op)
    requires CoreInv(s) && ChansInv(s)
    requires s.running.Some? && !op.Tick? && !QueueCall(op) && HandlerSafe(s, op)
    ensures ChansInv(Handler(s, op)) && Handler(s, op).chans == s.chans
  {
    HandlerBystander(s, op);
    FrameChans(s, Handler(s, op));
  }

  lemma StepOfCall(s: State, op: Op)
    requires !op.Tick? && Safe(s, op)
    ensures s.running.Some? && HandlerSafe(Trap(s, op), op)
    ensures var after := Handler(Trap(s, op), op);
      Step(s, op) == after.(chans := Observe(s, op, after))
  {
    hide Handler, HandlerSafe, Trap, Observe;
  }

  lemma QueueCallChans(s: State, op: Op)
    requires s.running.Some? && QueueCall(op)
    requires CoreInv(Trap(s, op)) && ChansInv(Trap(s, op)) && HandlerSafe(Trap(s, op), op)
    ensures var after := Handler(Trap(s, op), op);
      ChansInv(after.(chans := Observe(s, op, after)))
  {
    hide CoreInv, ChansInv, Delivers, DoPut, DoGet, DoCreate, DoDelete;
    var t := Trap(s, op);
    match op
    case Put(id, v) => PutOutcome(t, id, v);
    case Get(id, out) => GetOutcome(t, id);
    case Create(id, cap) => CreateOutcome(t, id, cap);
    case Delete(id) => DeleteOutcome(t, id);
  }

  lemma HandlerChans(s: State, op: Op)
    requires CoreInv(s) && ChansInv(s) && !op.Tick? && Safe(s, op)
    ensures ChansInv(Step(s, op))
  {
    hide CoreInv, ChansInv, Handler, HandlerSafe, Step, Safe;
    StepOfCall(s, op);
    TrapChans(s, op);
    if QueueCall(op) {
      QueueCallChans(s, op);
    } else {
      OtherCallChans(Trap(s, op), op);
    }
  }

  // ---------- the invariant ----------

  lemma HistoryQuiet(s: State, h: map<int, Chan>)
    requires ListsInv(s)
    ensures Quiet(s, s.(chans := h)) && ListsInv(s.(chans := h))
  {
  }

  lemma HistoryKeeps(s: State, h: map<int, Chan>)
    requires CoreInv(s)
    ensures CoreInv(s.(chans := h))
  {
    HistoryQuiet(s, h);
    FrameQuiet(s, s.(chans := h));
  }

  lemma TickChans(s: State)
    requires CoreInv(s) && ChansInv(s)
    ensures ChansInv(DoTick(s))
  {
    TickBystander(s);
    FrameChans(s, DoTick(s));
  }

  /** Every step that does not fault keeps the invariant. */
  lemma StepKeeps(s: State, op: Op)
    requires Inv(s) && Safe(s, op)
    ensures Inv(Step(s, op))
  {
    hide CoreInv, ChansInv, DoTick, Handler;
    if op.Tick? {
      DoTickKeeps(s);
      TickChans(s);
    } else {
      var t := Trap(s, op);
      TrapKeeps(s, op);
      HandlerKeeps(t, op);
      HandlerChans(s, op);
      HistoryKeeps(Handler(t, op), Observe(s, op, Handler(t, op)));
    }
  }

  lemma BootLists()
    ensures ListsInv(Boot()) && PidsInv(Boot()) && TreeInv(Boot()) && WorkConserving(Boot())
  {
  }

  lemma BootPools()
    ensures PoolsInv(Boot())
  {
    var full: Pool<Ref, ()> := Pool(AllRefs(), map[]);
    assert full.Wf(MAX_NUM_PROCESSES);
    full.TakeKeeps((), MAX_NUM_PROCESSES);
  }

  lemma BootInv()
    ensures Inv(Boot())
  {
    hide PoolsInv, ListsInv, PidsInv, TreeInv;
    BootLists();
    BootPools();
  }

  lemma {:induction false} RunKeeps(s: State, ops: seq<Op>)
    requires Inv(s) && RunSafe(s, ops)
    ensures Inv(Run(s, ops))
    decreases |ops|
  {
    hide Inv, Step;
    if ops != [] {
      StepKeeps(s, ops[0]);
      RunKeeps(Step(s, ops[0]), ops[1..]);
    }
  }

  /** The invariant holds in every reachable state. */
  lemma ReachableInv(s: State)
    requires Reachable(s)
    ensures Inv(s)
  {
    hide Inv;
    var ops :| RunSafe(Boot(), ops) && Run(Boot(), ops) == s;
    BootInv();
    RunKeeps(Boot(), ops);
  }
}
