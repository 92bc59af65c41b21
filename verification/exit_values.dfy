/** The value a process exits with reaches the wait that reaps it. */
module ExitValues {
  import opened Wrappers
  import opened Seqs
  import opened KernelState
  import opened Syscalls
  import opened Invariants
  import opened Blocking
  import opened Bystanders
  import opened Steps
  import opened Orphans

  predicate SameResult(p: Pcb, p': Pcb) {
    p'.returnValue == p.returnValue && p'.pid == p.pid
  }

  /** No process but the running one has its pid or its exit value changed. */
  ghost predicate KeepsResults(s: State, s': State) {
    forall x: Ref :: Live(s, x) && s.running != Some(x) ==> SameResult(s.pcb[x], s'.pcb[x])
  }

  ghost predicate KeepsAllResults(s: State, s': State) {
    forall x: Ref :: SameResult(s.pcb[x], s'.pcb[x])
  }

  lemma PickNextResults(s: State, mark: bool)
    ensures KeepsAllResults(s, PickNext(s, mark))
  {
  }

  lemma ScheduleResults(s: State)
    ensures KeepsAllResults(s, Schedule(s))
  {
  }

  lemma {:induction false} WakeDueResults(s: State)
    ensures KeepsAllResults(s, WakeDue(s))
    decreases |s.timers|
  {
    if s.timers != [] && s.timers[0].wake <= s.time {
      WakeDueResults(WakeFirst(s));
    }
  }

  lemma TickResults(s: State)
    ensures KeepsAllResults(s, DoTick(s))
  {
    hide WakeDue, Schedule;
    WakeDueResults(s.(time := s.time + 1));
    ScheduleResults(WakeDue(s.(time := s.time + 1)));
  }

  lemma SpawnResults(s: State)
    requires s.running.Some? && SpawnSafe(s) && s.pcbPool.Wf(MAX_NUM_PROCESSES)
    ensures KeepsResults(s, DoSpawn(s))
  {
    assert s.pcbPool.free[0] in s.pcbPool.free;
  }

  lemma ReapResults(s: State, r: Ref, z: Ref, out: int)
    ensures KeepsAllResults(s, Reap(s, r, z, out)) && Reap(s, r, z, out).running == s.running
  {
  }

  lemma WaitResults(s: State)
    requires s.running.Some? && WaitSafe(s)
    ensures KeepsAllResults(s, DoWait(s))
  {
    hide Reap, PickNext;
    var r := s.running.value;
    var z := FindZombie(s, s.zombie, r, s.pcb[r].arg0);
    if WaitBlocks(s) {
      PickNextResults(Park(s), false);
    } else if z.Some? {
      ReapResults(s, r, z.value, s.pcb[r].arg1);
    }
  }

  lemma {:induction false} ReparentResults(s: State, r: Ref)
    requires r != s.initPcb
    ensures KeepsAllResults(s, ReparentAll(s, r))
    decreases |s.pcb[r].children|
  {
    if s.pcb[r].children != [] {
      ReparentResults(ReparentOne(s, r), r);
    }
  }

  /** The exiting process gets the value it passed as its exit value. */
  lemma ExitResults(s: State)
    requires s.running.Some? && ExitSafe(s)
    ensures KeepsResults(s, DoExit(s))
    ensures var r := s.running.value;
      DoExit(s).pcb[r].returnValue == s.pcb[r].arg0 && DoExit(s).pcb[r].pid == s.pcb[r].pid
  {
    hide PickNext, ReparentAll, ParentAwaits;
    var r := s.running.value;
    var s1 := SetPcb(s, r, s.pcb[r].(returnValue := s.pcb[r].arg0));
    if r != s.initPcb { ReparentResults(s1, r); }
    PickNextResults(NotifyParent(Bury(Adopt(s), r), r), true);
  }

  lemma {:induction false} ReparentReturns(s: State, r: Ref)
    requires r != s.initPcb
    ensures forall x: Ref :: ReparentAll(s, r).pcb[x].retval == s.pcb[x].retval
    decreases |s.pcb[r].children|
  {
    if s.pcb[r].children != [] { ReparentReturns(ReparentOne(s, r), r); }
  }

  /** Exit returns nothing to anybody, and stores nothing; the process becomes a zombie. */
  lemma ExitReturnsNothing(s: State)
    requires s.running.Some? && ExitSafe(s)
    ensures forall x: Ref :: DoExit(s).pcb[x].retval == s.pcb[x].retval
    ensures DoExit(s).mem == s.mem && DoExit(s).pcbPool == s.pcbPool
    ensures s.running.value in DoExit(s).zombie
  {
    hide Adopt, LoopEnds, Bury, NotifyParent, PickNext;
    var r := s.running.value;
    AdoptBystander(s);
    AdoptReturns(s);
    BuryReturns(Adopt(s), r);
    DispatchReturns(NotifyParent(Bury(Adopt(s), r), r));
  }

  lemma AdoptReturns(s: State)
    requires s.running.Some? && ExitSafe(s)
    ensures forall x: Ref :: Adopt(s).pcb[x].retval == s.pcb[x].retval
  {
    hide ReparentAll, LoopEnds;
    var r := s.running.value;
    if r != s.initPcb { ReparentReturns(SetPcb(s, r, s.pcb[r].(returnValue := s.pcb[r].arg0)), r); }
  }

  lemma BuryReturns(s: State, r: Ref)
    ensures var s' := NotifyParent(Bury(s, r), r);
      && (forall x: Ref :: s'.pcb[x].retval == s.pcb[x].retval)
      && s'.mem == s.mem && s'.pcbPool == s.pcbPool && r in s'.zombie
  {
  }

  lemma DispatchReturns(s: State)
    ensures var s' := PickNext(s, true);
      && (forall x: Ref :: s'.pcb[x].retval == s.pcb[x].retval)
      && s'.mem == s.mem && s'.pcbPool == s.pcbPool && s'.zombie == s.zombie
  {
  }

  lemma StepExitReturnsNothing(s: State, v: int)
    requires s.running.Some? && Safe(s, Exit(v))
    ensures var s' := Step(s, Exit(v));
      && (forall x: Ref :: s'.pcb[x].retval == s.pcb[x].retval) && s'.mem == s.mem
      && s'.pcbPool == s.pcbPool && s.running.value in s'.zombie
  {
    hide DoExit, DoTick;
    ExitReturnsNothing(Trap(s, Exit(v)));
  }

  lemma SleepResults(s: State)
    requires s.running.Some?
    ensures KeepsAllResults(s, DoSleep(s))
  {
    hide TimerInsert;
  }

  lemma PutResults(s: State)
    requires s.running.Some? && PutSafe(s)
    ensures KeepsAllResults(s, DoPut(s))
  {
    hide PickNext;
    if PutBlocks(s) { PickNextResults(Joined(s, s.pcb[s.running.value].arg0, false), true); }
  }

  lemma RefillResults(s: State, id: int)
    requires id in s.queues
    ensures KeepsAllResults(s, Refill(s, id)) && Refill(s, id).running == s.running
  {
  }

  lemma HandFromPutterResults(s: State, id: int, out: int)
    requires id in s.queues && s.queues[id].putters != []
    ensures KeepsAllResults(s, HandFromPutter(s, id, out)) && HandFromPutter(s, id, out).running == s.running
  {
  }

  lemma GetResults(s: State)
    requires s.running.Some? && GetSafe(s)
    ensures KeepsAllResults(s, DoGet(s))
  {
    hide PickNext, Refill, HandFromPutter;
    var id, out := s.pcb[s.running.value].arg0, s.pcb[s.running.value].arg1;
    if GetBlocks(s) {
      PickNextResults(Joined(s, id, true), true);
    } else if id in s.queues && s.queues[id].items != [] {
      RefillResults(TakeItem(s, id, out), id);
    } else if id in s.queues {
      HandFromPutterResults(s, id, out);
    }
  }

  lemma OpenFoundResults(s: State, rb: nat)
    requires s.running.Some? && rb in s.resPool.live
    requires s.desPool.free != [] ==> s.desPtrPool.free != []
    ensures KeepsAllResults(s, OpenFound(s, rb))
  {
  }

  lemma OpenResults(s: State)
    requires s.running.Some? && OpenSafe(s)
    ensures KeepsAllResults(s, DoOpen(s))
  {
    hide OpenFound, ResourceById;
    var p := s.pcb[s.running.value];
    var found := ResourceById(s.resPool.live, s.resList, p.arg0);
    if CreateBit(p.arg2) && found.None? {
      OpenFoundResults(AddResource(s, p.arg0, p.arg1), s.resPool.free[0]);
    } else if !CreateBit(p.arg2) && found.Some? {
      OpenFoundResults(s, found.value);
    }
  }

  lemma CloseResults(s: State)
    requires s.running.Some?
    ensures KeepsAllResults(s, DoClose(s))
  {
    hide DescriptorByFd, Remove, RemoveAt;
  }

  lemma CreateResults(s: State)
    requires s.running.Some?
    ensures KeepsAllResults(s, DoCreate(s))
  {
  }

  lemma DeleteResults(s: State)
    requires s.running.Some?
    ensures KeepsAllResults(s, DoDelete(s))
  {
    hide GiveItems;
  }

  lemma DestroyResults(s: State)
    requires s.running.Some?
    ensures KeepsAllResults(s, DoDestroy(s))
  {
    hide ResourceById, Remove;
  }

  lemma HandlerResults(s: State, op: Op)
    requires s.running.Some? && !op.Tick? && HandlerSafe(s, op) && s.pcbPool.Wf(MAX_NUM_PROCESSES)
    ensures KeepsResults(s, Handler(s, op))
  {
    hide Schedule, DoSpawn, DoWait, DoExit, DoSleep, DoPut, DoGet, DoOpen, DoClose, DoCreate, DoDelete, DoDestroy;
    match op
    case Preempt => ScheduleResults(s);
    case Fork => SpawnResults(s);
    case Spawn(_, _) => SpawnResults(s);
    case Wait(_, _) => WaitResults(s);
    case Exit(_) => ExitResults(s);
    case Sleep(_) => SleepResults(s);
    case Put(_, _) => PutResults(s);
    case Get(_, _) => GetResults(s);
    case Open(_, _, _) => OpenResults(s);
    case Create(_, _) => CreateResults(s);
    case Delete(_) => DeleteResults(s);
    case Close(_) => CloseResults(s);
    case Destroy(_) => DestroyResults(s);
  }

  lemma StepResult(s: State, op: Op, z: Ref)
    requires Inv(s) && Safe(s, op) && z in s.zombie
    ensures SameResult(s.pcb[z], Step(s, op).pcb[z])
  {
    hide Inv, DoTick, Handler, HandlerSafe;
    ZombieIsNotRunning(s, z);
    if op.Tick? {
      TickResults(s);
    } else {
      HandlerResults(Trap(s, op), op);
    }
  }

  lemma ZombieIsNotRunning(s: State, z: Ref)
    requires Inv(s) && z in s.zombie
    ensures Live(s, z) && s.running != Some(z) && s.pcbPool.Wf(MAX_NUM_PROCESSES)
  {
  }

  /** All through the run `z` is a zombie. */
  ghost predicate StaysZombie(s: State, ops: seq<Op>, z: Ref)
    requires RunSafe(s, ops)
    decreases |ops|
  {
    z in s.zombie && (ops != [] ==> StaysZombie(Step(s, ops[0]), ops[1..], z))
  }

  lemma {:induction false} ZombieKeepsResult(s: State, ops: seq<Op>, z: Ref)
    requires Inv(s) && RunSafe(s, ops) && StaysZombie(s, ops, z)
    ensures SameResult(s.pcb[z], Run(s, ops).pcb[z])
    decreases |ops|
  {
    hide Inv, Step;
    if ops != [] {
      StepKeeps(s, ops[0]);
      StepResult(s, ops[0], z);
      ZombieKeepsResult(Step(s, ops[0]), ops[1..], z);
    }
  }

  lemma StepExit(s: State, v: int)
    requires s.running.Some? && Safe(s, Exit(v))
    ensures var r := s.running.value;
      Step(s, Exit(v)).pcb[r].returnValue == v && Step(s, Exit(v)).pcb[r].pid == s.pcb[r].pid
  {
    hide DoExit, DoTick;
    ExitResults(Trap(s, Exit(v)));
  }

  /** What a wait that finds a zombie to reap does for its caller. */
  ghost predicate Delivered(s: State, s': State, z: Ref, out: int, pid: int, v: int)
    requires s.running.Some?
  {
    && s'.running == s.running && s'.pcb[s.running.value].retval == pid
    && Stores(s.mem, s'.mem, out, v)
    && !Live(s', z) && z !in s'.zombie
  }

  lemma ReapDelivers(s: State, r: Ref, z: Ref, out: int, pid: int)
    requires s.running == Some(r) && NoDup(s.zombie)
    ensures Delivered(s, Return(Reap(s, r, z, out), pid), z, out, pid, s.pcb[z].returnValue)
  {
    hide Unlink;
    RemoveNoDup(s.zombie, z);
    UnlinkResult(s.(zombie := Remove(s.zombie, z)), r, s.pcb[z].pid, z);
  }

  lemma UnlinkResult(s: State, r: Ref, pid: int, z: Ref)
    ensures var s' := Unlink(s, r, pid);
      s'.mem == s.mem && s'.running == s.running && s'.zombie == s.zombie && SameResult(s.pcb[z], s'.pcb[z])
  {
  }

  lemma WaitDelivers(s: State, pid: int, out: int, z: Ref)
    requires s.running.Some? && NoDup(s.zombie) && s.pcb[s.running.value].children != []
    requires s.pcb[s.running.value].arg0 == pid && s.pcb[s.running.value].arg1 == out
    requires FindZombie(s, s.zombie, s.running.value, pid) == Some(z)
    ensures WaitSafe(s) && Delivered(s, DoWait(s), z, out, s.pcb[z].pid, s.pcb[z].returnValue)
  {
    hide Reap, Return, Delivered;
    ReapDelivers(s, s.running.value, z, out, s.pcb[z].pid);
  }

  lemma StepWaitDelivers(s: State, pid: int, out: int, z: Ref)
    requires Inv(s) && s.running.Some? && s.pcb[s.running.value].children != []
    requires FindZombie(s, s.zombie, s.running.value, pid) == Some(z)
    ensures Safe(s, Wait(pid, out))
    ensures Delivered(s, Step(s, Wait(pid, out)), z, out, s.pcb[z].pid, s.pcb[z].returnValue)
  {
    hide Inv, Step, Safe, DoWait, FindZombie, WaitSafe;
    var op := Wait(pid, out);
    WaitingLists(s);
    TrapFinds(s, op, s.zombie, s.running.value, pid);
    WaitDelivers(Trap(s, op), pid, out, z);
    StepWait(s, op);
  }

  lemma WaitingLists(s: State)
    requires Inv(s)
    ensures NoDup(s.zombie)
  {
  }

  /** The value given to exit is what a later wait stores, with the pid of the process that
      exited as its result, however long the zombie had to be kept in between. */
  lemma ExitValueReachesWait(s: State, v: int, ops: seq<Op>, pid: int, out: int)
    requires Inv(s) && s.running.Some? && Safe(s, Exit(v)) && RunSafe(Step(s, Exit(v)), ops)
    requires StaysZombie(Step(s, Exit(v)), ops, s.running.value)
    requires var s2 := Run(Step(s, Exit(v)), ops);
      && s2.running.Some? && s2.pcb[s2.running.value].children != []
      && FindZombie(s2, s2.zombie, s2.running.value, pid) == Some(s.running.value)
    ensures var z, s2 := s.running.value, Run(Step(s, Exit(v)), ops);
      && Safe(s2, Wait(pid, out))
      && Delivered(s2, Step(s2, Wait(pid, out)), z, out, s.pcb[z].pid, v)
  {
    hide Inv, Step, Safe, Run, RunSafe, StaysZombie, FindZombie, Delivered;
    StepKeeps(s, Exit(v));
    StepExit(s, v);
    ZombieKeepsResult(Step(s, Exit(v)), ops, s.running.value);
    RunKeeps(Step(s, Exit(v)), ops);
    StepWaitDelivers(Run(Step(s, Exit(v)), ops), pid, out, s.running.value);
  }
}
