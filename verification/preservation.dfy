/** Every step keeps the invariants. */
module Preservation {
  import opened Wrappers
  import opened Seqs
  import opened KernelState
  import opened Syscalls
  import opened Invariants
  import opened ExitLoop
  import opened Frames
  import opened Scheduling
  import opened Blocking
  import opened Waking
  import opened Buffers
  import opened Family
  import opened Files

  lemma DoWaitKeeps(s: State)
    requires CoreInv(s) && s.running.Some? && WaitSafe(s)
    requires s.pcb[s.running.value].syscallNum == CALL_WAIT
    ensures CoreInv(DoWait(s)) && WorkConserving(DoWait(s))
  {
    hide CoreInv;
    var r := s.running.value;
    if s.pcb[r].children == [] {
      ReturnKeeps(s, EWAIT);
    } else {
      var z := FindZombie(s, s.zombie, r, s.pcb[r].arg0);
      if z.Some? {
        ReapKeeps(s, r, z.value, s.pcb[r].arg1);
        ReturnKeeps(Reap(s, r, z.value, s.pcb[r].arg1), s.pcb[z.value].pid);
      } else {
        WaitKeeps(s);
        PickNextKeeps(Park(s), false);
      }
    }
  }

  lemma AdoptKeeps(s: State)
    requires CoreInv(s) && s.running.Some? && ExitSafe(s)
    ensures CoreInv(Adopt(s)) && Adopt(s) == s.(pcb := Adopt(s).pcb)
    ensures Adopt(s).pcb[s.running.value].children == []
  {
    var r := s.running.value;
    var s1 := SetPcb(s, r, s.pcb[r].(returnValue := s.pcb[r].arg0));
    hide CoreInv, LoopEnds, ReparentAll;
    ExitSafeExactly(s);
    ReturnValueQuiet(s);
    FrameQuiet(s, s1);
    if r != s.initPcb { ReparentAllKeeps(s1, r); }
  }

  lemma ReturnValueQuiet(s: State)
    requires ListsInv(s) && s.running.Some?
    ensures var r := s.running.value;
      var s1 := SetPcb(s, r, s.pcb[r].(returnValue := s.pcb[r].arg0));
      Quiet(s, s1) && ListsInv(s1)
  {
  }

  lemma DoExitKeeps(s: State)
    requires CoreInv(s) && s.running.Some? && ExitSafe(s)
    ensures CoreInv(DoExit(s)) && WorkConserving(DoExit(s))
  {
    hide CoreInv;
    var r := s.running.value;
    AdoptKeeps(s);
    NotifyKeeps(Adopt(s), r);
    PickNextKeeps(NotifyParent(Bury(Adopt(s), r), r), true);
  }

  lemma DoSleepKeeps(s: State)
    requires CoreInv(s) && s.running.Some?
    requires s.pcb[s.running.value].syscallNum == CALL_SLEEP
    ensures CoreInv(DoSleep(s)) && WorkConserving(DoSleep(s))
  {
    hide CoreInv;
    var r := s.running.value;
    if s.pcb[r].timer.Some? || s.timerPool.free == [] {
      ReturnKeeps(s, ESLEEP);
    } else {
      SleepKeeps(s, s.pcb[r].arg0);
      PickNextKeeps(Park(AddTimer(s, s.pcb[r].arg0)), false);
    }
  }

  lemma {:induction false} WakeDueKeeps(s: State)
    requires CoreInv(s)
    ensures CoreInv(WakeDue(s))
    decreases |s.timers|
  {
    hide CoreInv;
    if s.timers != [] && s.timers[0].wake <= s.time {
      WakeFirstKeeps(s);
      WakeDueKeeps(WakeFirst(s));
    }
  }

  lemma LaterQuiet(s: State)
    requires ListsInv(s)
    ensures var s1 := s.(time := s.time + 1); Quiet(s, s1) && ListsInv(s1)
  {
  }

  lemma LaterKeeps(s: State)
    requires CoreInv(s)
    ensures CoreInv(s.(time := s.time + 1))
  {
    LaterQuiet(s);
    FrameQuiet(s, s.(time := s.time + 1));
  }

  lemma DoTickKeeps(s: State)
    requires CoreInv(s)
    ensures CoreInv(DoTick(s)) && WorkConserving(DoTick(s))
  {
    hide CoreInv;
    var s1 := s.(time := s.time + 1);
    LaterKeeps(s);
    WakeDueKeeps(s1);
    ScheduleKeeps(WakeDue(s1));
  }

  lemma DoCreateKeeps(s: State)
    requires CoreInv(s) && s.running.Some?
    ensures CoreInv(DoCreate(s)) && WorkConserving(DoCreate(s))
  {
    hide CoreInv;
    var id, cap := s.pcb[s.running.value].arg0, s.pcb[s.running.value].arg1;
    if cap <= 0 {
      ReturnKeeps(s, ESYSCALL_ARGUMENT_OUT_OF_BOUNDS);
    } else if id in s.queues {
      ReturnKeeps(s, EEXIST);
    } else if s.bqPool.free == [] {
      ReturnKeeps(s, ESYSCALL_NOT_IMPLEMENTED);
    } else {
      CreateKeeps(s, id, cap);
      ReturnKeeps(WithQueue(s, id, cap), 0);
    }
  }

  lemma DoDeleteKeeps(s: State)
    requires CoreInv(s) && s.running.Some?
    ensures CoreInv(DoDelete(s)) && WorkConserving(DoDelete(s))
  {
    hide CoreInv;
    var id := s.pcb[s.running.value].arg0;
    if id !in s.queues {
      ReturnKeeps(s, ERESOURCENOFD);
    } else if s.queues[id].getters != [] || s.queues[id].putters != [] {
      ReturnKeeps(s, ERESOURCEINUSE);
    } else {
      DeleteKeeps(s, id);
      ReturnKeeps(WithoutQueue(s, id), 0);
    }
  }

  lemma DoPutKeeps(s: State)
    requires CoreInv(s) && s.running.Some? && PutSafe(s)
    requires s.pcb[s.running.value].syscallNum == CALL_PUT
    ensures CoreInv(DoPut(s)) && WorkConserving(DoPut(s))
  {
    hide CoreInv;
    var id, v := s.pcb[s.running.value].arg0, s.pcb[s.running.value].arg1;
    if id !in s.queues {
      ReturnKeeps(s, ERESOURCENOFD);
    } else if s.queues[id].getters != [] {
      HandToGetterKeeps(s, id, v);
      ReturnKeeps(HandToGetter(s, id, v), 0);
    } else if s.queues[id].size < s.queues[id].capacity {
      if s.itemPool.free == [] {
        ReturnKeeps(s, ESYSCALL_NOT_IMPLEMENTED);
      } else {
        AddItemKeeps(s, id, v);
        ReturnKeeps(AddItem(s, id, v), 0);
      }
    } else {
      QueueKeeps(s, id, false);
      PickNextKeeps(Joined(s, id, false), true);
    }
  }

  /** The branch of get that would hand a value over from a putter past an empty buffer can
      never be taken. */
  lemma EmptyBufferHasNoPutters(s: State, id: int)
    requires CoreInv(s) && id in s.queues && s.queues[id].items == []
    ensures s.queues[id].putters == []
  {
  }

  lemma DoGetKeeps(s: State)
    requires CoreInv(s) && s.running.Some? && GetSafe(s)
    requires s.pcb[s.running.value].syscallNum == CALL_GET
    ensures CoreInv(DoGet(s)) && WorkConserving(DoGet(s))
  {
    hide CoreInv;
    var id, out := s.pcb[s.running.value].arg0, s.pcb[s.running.value].arg1;
    if id !in s.queues {
      ReturnKeeps(s, ERESOURCENOFD);
    } else if s.queues[id].items != [] {
      if s.queues[id].putters == [] {
        TakeItemKeeps(s, id, out);
        ReturnKeeps(TakeItem(s, id, out), 0);
      } else {
        RefillKeeps(s, id, out);
        ReturnKeeps(Refilled(s, id, out), 0);
      }
    } else {
      EmptyBufferHasNoPutters(s, id);
      QueueKeeps(s, id, true);
      PickNextKeeps(Joined(s, id, true), true);
    }
  }

  lemma SpawnCallKeeps(s: State)
    requires CoreInv(s) && s.running.Some? && SpawnSafe(s)
    ensures CoreInv(DoSpawn(s)) && WorkConserving(DoSpawn(s))
  {
    hide CoreInv;
    SpawnKeeps(s);
  }

  lemma OpenIsBusy(s: State)
    requires s.running.Some? && OpenSafe(s)
    ensures WorkConserving(DoOpen(s))
  {
    hide ResourceById;
  }

  lemma CloseIsBusy(s: State)
    requires s.running.Some?
    ensures WorkConserving(DoClose(s))
  {
    hide DescriptorByFd, Remove, RemoveAt;
  }

  lemma DestroyIsBusy(s: State)
    requires s.running.Some?
    ensures WorkConserving(DoDestroy(s))
  {
    hide ResourceById, Remove;
  }

  lemma HandlerKeeps(s: State, op: Op)
    requires CoreInv(s) && s.running.Some? && !op.Tick? && HandlerSafe(s, op)
    requires s.pcb[s.running.value].syscallNum == Number(op)
    ensures CoreInv(Handler(s, op)) && WorkConserving(Handler(s, op))
  {
    hide CoreInv, WorkConserving, Schedule, DoSpawn, DoWait, DoExit, DoSleep, DoCreate, DoDelete, DoPut, DoGet;
    hide DoOpen, DoClose, DoDestroy;
    match op
    case Preempt => ScheduleKeeps(s);
    case Fork => SpawnCallKeeps(s);
    case Spawn(_, _) => SpawnCallKeeps(s);
    case Wait(_, _) => DoWaitKeeps(s);
    case Exit(_) => DoExitKeeps(s);
    case Sleep(_) => DoSleepKeeps(s);
    case Create(_, _) => DoCreateKeeps(s);
    case Delete(_) => DoDeleteKeeps(s);
    case Put(_, _) => DoPutKeeps(s);
    case Get(_, _) => DoGetKeeps(s);
    case Open(_, _, _) => OpenKeeps(s); OpenIsBusy(s);
    case Close(_) => CloseKeeps(s); CloseIsBusy(s);
    case Destroy(_) => DestroyCallKeeps(s); DestroyIsBusy(s);
  }
}
