/** When the running process has status Ready: exactly when it was dispatched by a sleep or by
    a wait that blocked, which do not mark the process they dispatch. */
module Dispatching {
  import opened Wrappers
  import opened Seqs
  import opened KernelState
  import opened Syscalls
  import opened Invariants
  import opened Scheduling
  import opened Blocking
  import opened Waking
  import opened Bystanders
  import opened Preservation
  import opened Steps
  import opened WakeUps
  import opened Counting
  import opened Sleeping

  ghost predicate RunsReady(s: State) {
    s.running.Some? && s.pcb[s.running.value].status == Ready
  }

  /** The call blocks its caller without marking the process that takes over. */
  predicate Unmarked(s: State, op: Op) {
    && s.running.Some?
    && (op.Sleep? ||
        (op.Wait? && s.pcb[s.running.value].children != []
         && FindZombie(s, s.zombie, s.running.value, op.pid).None?))
  }

  /** The processor stays with the same process, whose status is as before, or goes to nobody,
      or to a process marked as running. */
  ghost predicate Marks(s: State, s': State) {
    || (s'.running == s.running
        && (s.running.Some? ==> s'.pcb[s.running.value].status == s.pcb[s.running.value].status))
    || s'.running == None
    || (s'.running != s.running && s'.pcb[s'.running.value].status == Running)
  }

  lemma MarkedDispatch(s: State, u: State)
    requires s.running.Some? ==> s.running.value !in u.ready
    ensures Marks(s, PickNext(u, true))
  {
  }

  lemma ScheduleMarks(s: State)
    requires s.running.Some? ==> s.running.value !in s.ready
    ensures Marks(s, Schedule(s))
  {
  }

  lemma TickMarks(s: State)
    requires CoreInv(s)
    ensures Marks(s, DoTick(s))
  {
    hide CoreInv, WakeDue, Schedule;
    var s1 := s.(time := s.time + 1);
    LaterKeeps(s);
    WakeDueKeeps(s1);
    WakeDueRunning(s1);
    RunningUnready(WakeDue(s1));
    ScheduleMarks(WakeDue(s1));
  }

  lemma {:induction false} WakeDueRunning(s: State)
    requires CoreInv(s)
    ensures WakeDue(s).running == s.running
    ensures s.running.Some? ==> WakeDue(s).pcb[s.running.value].status == s.pcb[s.running.value].status
    decreases |s.timers|
  {
    hide CoreInv, WakeFirst;
    if s.timers != [] && s.timers[0].wake <= s.time {
      WakeFirstKeeps(s);
      WakeFirstRunning(s);
      WakeDueRunning(WakeFirst(s));
    }
  }

  lemma WakeFirstRunning(s: State)
    requires CoreInv(s) && s.timers != []
    ensures WakeFirst(s).running == s.running && |WakeFirst(s).timers| < |s.timers|
    ensures s.running.Some? ==> WakeFirst(s).pcb[s.running.value].status == s.pcb[s.running.value].status
  {
    assert s.timers[0] in s.timers;
  }

  lemma RunningUnready(s: State)
    requires CoreInv(s)
    ensures s.running.Some? ==> s.running.value !in s.ready
  {
  }

  // ---------- calls ----------

  lemma SpawnMarks(s: State)
    requires ListsInv(s) && s.running.Some? && SpawnSafe(s) && s.pcbPool.Wf(MAX_NUM_PROCESSES)
    ensures Marks(s, DoSpawn(s))
  {
    assert s.pcbPool.free[0] in s.pcbPool.free;
  }

  lemma ReapMarks(s: State, r: Ref, z: Ref, out: int, v: int)
    requires s.running.Some?
    ensures Marks(s, Return(Reap(s, r, z, out), v)) && Reap(s, r, z, out).running == s.running
  {
  }

  lemma WaitMarks(s: State)
    requires s.running.Some? && !WaitBlocks(s)
    ensures WaitSafe(s) && Marks(s, DoWait(s))
  {
    hide Reap, Return, FindZombie;
    var r := s.running.value;
    if s.pcb[r].children == [] {
      ReturnMarks(s, EWAIT);
    } else {
      var z := FindZombie(s, s.zombie, r, s.pcb[r].arg0).value;
      ReapMarks(s, r, z, s.pcb[r].arg1, s.pcb[z].pid);
    }
  }

  lemma ReturnMarks(s: State, v: int)
    requires s.running.Some?
    ensures Marks(s, Return(s, v))
  {
  }

  lemma ExitMarks(s: State)
    requires CoreInv(s) && s.running.Some? && ExitSafe(s)
    ensures Marks(s, DoExit(s))
  {
    hide CoreInv, Adopt, PickNext, LoopEnds;
    var r := s.running.value;
    AdoptBystander(s);
    AdoptStanding(s);
    ExitParent(s);
    RunningUnready(s);
    LeaverUnready(Adopt(s), r);
    MarkedDispatch(s, NotifyParent(Bury(Adopt(s), r), r));
    IdleAfterExit(NotifyParent(Bury(Adopt(s), r), r));
  }

  lemma LeaverUnready(s: State, r: Ref)
    requires r !in s.ready && s.pcb[r].parent != Some(r)
    ensures r !in NotifyParent(Bury(s, r), r).ready
  {
  }

  lemma IdleAfterExit(s: State)
    ensures PickNext(s, true).running == if s.ready == [] then None else Some(s.ready[0])
  {
  }

  /** The call leaves the processor with its caller, whose status stays. */
  ghost predicate Continues(s: State, s': State)
    requires s.running.Some?
  {
    s'.running == s.running && s'.pcb[s.running.value].status == s.pcb[s.running.value].status
  }

  lemma HandToGetterContinues(s: State, id: int, v: int)
    requires s.running.Some? && id in s.queues && s.queues[id].getters != []
    requires s.queues[id].getters[0].pcb != s.running.value
    ensures Continues(s, HandToGetter(s, id, v))
  {
  }

  lemma PutMarks(s: State)
    requires CoreInv(s) && s.running.Some? && PutSafe(s)
    ensures Marks(s, DoPut(s))
  {
    hide CoreInv, PickNext, HandToGetter;
    var id, v := s.pcb[s.running.value].arg0, s.pcb[s.running.value].arg1;
    RunningUnready(s);
    if PutBlocks(s) {
      MarkedDispatch(s, Joined(s, id, false));
      IdleAfterExit(Joined(s, id, false));
    } else if id in s.queues && s.queues[id].getters != [] {
      WaiterIsAnother(s, id);
      HandToGetterContinues(s, id, v);
    }
  }

  lemma WaiterIsAnother(s: State, id: int)
    requires CoreInv(s) && s.running.Some? && id in s.queues
    ensures s.queues[id].getters != [] ==> s.queues[id].getters[0].pcb != s.running.value
    ensures s.queues[id].putters != [] ==> s.queues[id].putters[0].pcb != s.running.value
    ensures s.queues[id].items == [] ==> s.queues[id].putters == []
  {
    if s.queues[id].getters != [] { HeadWaiterBlocked(s, id, true); }
    if s.queues[id].putters != [] { HeadWaiterBlocked(s, id, false); }
  }

  lemma RefillContinues(s: State, id: int)
    requires s.running.Some? && id in s.queues
    requires s.queues[id].putters != [] ==> s.queues[id].putters[0].pcb != s.running.value
    ensures Continues(s, Refill(s, id))
  {
  }

  lemma GetMarks(s: State)
    requires CoreInv(s) && s.running.Some? && GetSafe(s)
    ensures Marks(s, DoGet(s))
  {
    hide CoreInv, PickNext, Refill;
    var id, out := s.pcb[s.running.value].arg0, s.pcb[s.running.value].arg1;
    RunningUnready(s);
    if GetBlocks(s) {
      MarkedDispatch(s, Joined(s, id, true));
      IdleAfterExit(Joined(s, id, true));
    } else if id in s.queues {
      WaiterIsAnother(s, id);
      RefillContinues(TakeItem(s, id, out), id);
    }
  }

  lemma CreateMarks(s: State)
    requires s.running.Some?
    ensures Marks(s, DoCreate(s))
  {
  }

  lemma DeleteMarks(s: State)
    requires s.running.Some?
    ensures Marks(s, DoDelete(s))
  {
    hide GiveItems;
  }

  lemma OpenFoundMarks(s: State, rb: nat)
    requires s.running.Some? && rb in s.resPool.live
    requires s.desPool.free != [] ==> s.desPtrPool.free != []
    ensures Continues(s, OpenFound(s, rb))
  {
  }

  lemma OpenMarks(s: State)
    requires s.running.Some? && OpenSafe(s)
    ensures Marks(s, DoOpen(s))
  {
    hide OpenFound, ResourceById;
    var p := s.pcb[s.running.value];
    var found := ResourceById(s.resPool.live, s.resList, p.arg0);
    if CreateBit(p.arg2) && found.None? {
      OpenFoundMarks(AddResource(s, p.arg0, p.arg1), s.resPool.free[0]);
    } else if !CreateBit(p.arg2) && found.Some? {
      OpenFoundMarks(s, found.value);
    }
  }

  lemma CloseMarks(s: State)
    requires s.running.Some?
    ensures Marks(s, DoClose(s))
  {
    hide DescriptorByFd, Remove, RemoveAt;
  }

  lemma DestroyMarks(s: State)
    requires s.running.Some?
    ensures Marks(s, DoDestroy(s))
  {
    hide ResourceById, Remove;
  }

  lemma CallMarks(s: State, op: Op)
    requires CoreInv(s) && s.running.Some? && !op.Tick? && !op.Sleep? && HandlerSafe(s, op)
    requires op.Wait? ==> !WaitBlocks(s)
    ensures Marks(s, Handler(s, op))
  {
    hide Marks, CoreInv, Schedule, DoSpawn, DoWait, DoExit, DoCreate, DoDelete, DoPut, DoGet, DoOpen, DoClose;
    hide DoDestroy;
    CoreParts(s);
    match op
    case Preempt => ScheduleMarks(s);
    case Fork => SpawnMarks(s);
    case Spawn(_, _) => SpawnMarks(s);
    case Wait(_, _) => WaitMarks(s);
    case Exit(_) => ExitMarks(s);
    case Create(_, _) => CreateMarks(s);
    case Delete(_) => DeleteMarks(s);
    case Put(_, _) => PutMarks(s);
    case Get(_, _) => GetMarks(s);
    case Open(_, _, _) => OpenMarks(s);
    case Close(_) => CloseMarks(s);
    case Destroy(_) => DestroyMarks(s);
  }

  lemma CoreParts(s: State)
    requires CoreInv(s)
    ensures ListsInv(s) && s.pcbPool.Wf(MAX_NUM_PROCESSES)
    ensures s.running.Some? ==> s.running.value !in s.ready
  {
  }

  // ---------- calls that do not mark ----------

  /** The head of the ready list, if there is one, takes over with status Ready. */
  ghost predicate TakesOverReady(s: State, s': State) {
    if s.ready == [] then s'.running == None
    else s'.running == Some(s.ready[0]) && s'.running != s.running && s'.pcb[s.ready[0]].status == Ready
  }

  lemma SilentDispatch(s: State, u: State)
    requires ListsInv(s) && s.running.Some? && u.ready == s.ready
    requires forall x: Ref :: s.running != Some(x) ==> u.pcb[x].status == s.pcb[x].status
    ensures TakesOverReady(s, PickNext(u, false))
  {
    assert s.ready != [] ==> s.ready[0] in s.ready;
  }

  lemma SleepUnmarked(s: State)
    requires ListsInv(s) && s.running.Some? && s.timerPool.free != [] && s.pcb[s.running.value].timer == None
    ensures TakesOverReady(s, DoSleep(s))
  {
    hide TimerInsert, PickNext;
    SilentDispatch(s, Park(AddTimer(s, s.pcb[s.running.value].arg0)));
  }

  lemma WaitUnmarked(s: State)
    requires ListsInv(s) && s.running.Some? && WaitSafe(s) && WaitBlocks(s)
    ensures TakesOverReady(s, DoWait(s))
  {
    hide PickNext, Reap, FindZombie;
    SilentDispatch(s, Park(s));
  }

  lemma UnmarkedCall(s: State, op: Op)
    requires CoreInv(s) && s.running.Some? && !op.Tick? && HandlerSafe(s, op) && s.timerPool.free != []
    requires op.Sleep? || (op.Wait? && WaitBlocks(s))
    ensures TakesOverReady(s, Handler(s, op))
  {
    hide CoreInv, DoSleep, DoWait, WaitSafe, WaitBlocks, TakesOverReady;
    CoreParts(s);
    RunningHasNoTimer(s);
    if op.Sleep? { SleepUnmarked(s); } else { WaitUnmarked(s); }
  }

  // ---------- exactly when ----------

  lemma TrapStatus(s: State, op: Op)
    requires s.running.Some? && !op.Tick?
    ensures var t := Trap(s, op);
      && (forall x: Ref :: t.pcb[x].status == s.pcb[x].status) && t.ready == s.ready && t.running == s.running
      && t.timerPool == s.timerPool
      && (Unmarked(s, op) <==> op.Sleep? || (op.Wait? && WaitBlocks(t)))
  {
    hide FindZombie;
    if op.Wait? { TrapAwaits(s, op, s.zombie); }
  }

  lemma {:induction false} TrapAwaits(s: State, op: Op, zs: seq<Ref>)
    requires s.running.Some? && op.Wait?
    ensures FindZombie(Trap(s, op), zs, s.running.value, op.pid) == FindZombie(s, zs, s.running.value, op.pid)
    decreases |zs|
  {
    if zs != [] { TrapAwaits(s, op, zs[1..]); }
  }

  lemma StepOutcome(s: State, op: Op)
    requires Inv(s) && Safe(s, op)
    ensures if Unmarked(s, op) then TakesOverReady(s, Step(s, op)) else Marks(s, Step(s, op))
  {
    hide CoreInv, ChansInv, WorkConserving, Unmarked, WaitBlocks, DoTick, Handler, HandlerSafe, Trap, Observe;
    if op.Tick? {
      TickIsMarked(s, op);
      TickMarks(s);
    } else {
      TimersNeverRunOut(s);
      var t := Trap(s, op);
      TrapKeeps(s, op);
      TrapStatus(s, op);
      if Unmarked(s, op) { UnmarkedCall(t, op); } else { CallMarks(t, op); }
    }
  }

  lemma TickIsMarked(s: State, op: Op)
    ensures op.Tick? ==> !Unmarked(s, op)
  {
  }

  /** The process that runs after a step has status Ready if and only if the step was a sleep
      or a wait that blocked, with somebody ready to take over, or the step left the processor
      with a process that had status Ready before. */
  lemma ReadyExactly(s: State, op: Op)
    requires Inv(s) && Safe(s, op)
    ensures var s' := Step(s, op);
      && (RunsReady(s') <==> (Unmarked(s, op) && s.ready != []) || (s'.running == s.running && RunsReady(s)))
      && (Unmarked(s, op) && s'.running.Some? ==> s.ready != [] && s'.running != s.running)
  {
    hide Inv, Step, Safe, Unmarked;
    StepOutcome(s, op);
    if Unmarked(s, op) { UnmarkedRuns(s, op); }
  }

  lemma UnmarkedRuns(s: State, op: Op)
    requires Unmarked(s, op)
    ensures s.running.Some?
  {
    hide FindZombie;
  }

  // ---------- whole runs ----------

  /** The last step of the run that gave the processor to another process was a sleep or a wait
      that blocked; `before` says so of what was before the run. */
  ghost predicate LastDispatchUnmarked(s: State, ops: seq<Op>, before: bool)
    requires RunSafe(s, ops)
    decreases |ops|
  {
    if ops == [] then before
    else
      var s' := Step(s, ops[0]);
      LastDispatchUnmarked(s', ops[1..], if s'.running == s.running then before else Unmarked(s, ops[0]))
  }

  lemma {:induction false} RunReadyExactly(s: State, ops: seq<Op>, before: bool)
    requires Inv(s) && RunSafe(s, ops) && (s.running.Some? ==> (RunsReady(s) <==> before))
    ensures Run(s, ops).running.Some? ==> (RunsReady(Run(s, ops)) <==> LastDispatchUnmarked(s, ops, before))
    decreases |ops|
  {
    hide Inv, Step, Safe, Unmarked;
    if ops != [] {
      var s' := Step(s, ops[0]);
      StepKeeps(s, ops[0]);
      ReadyExactly(s, ops[0]);
      RunReadyExactly(s', ops[1..], if s'.running == s.running then before else Unmarked(s, ops[0]));
    }
  }

  lemma BootIsMarked()
    ensures Boot().running.Some? && !RunsReady(Boot())
  {
  }
}
