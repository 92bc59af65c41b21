/** Short runs from boot with an outcome that the calls alone do not suggest. */
module Surprises {
  import opened Wrappers
  import opened KernelState
  import opened Syscalls
  import opened Invariants
  import opened ExitLoop
  import opened StrandedInit
  import opened FaultRuns
  import opened Orphans
  import opened Steps

  // ---------- a wait that blocked gets no result ----------

  /** Init, in block 0, is blocked in wait, and its child, in block 1, runs with status Ready. */
  ghost predicate ChildRunsReady(s: State) {
    && s.initPcb == 0 && s.running == Some(1) && s.pcb[1].status == Ready && s.ready == []
    && s.waiting == [0] && s.pcb[0].status == Waiting && s.pcb[0].syscallNum == CALL_WAIT
    && s.pcb[0].arg0 == 0 && s.pcb[0].arg1 == 100 && s.pcb[0].retval == 1
    && s.pcb[1].parent == Some(0) && s.pcb[1].children == [] && s.zombie == [] && s.mem == map[]
    && 1 in s.pcbPool.live
  }

  /** Init runs again: the result of its call is still that of the spawn before, nothing was
      stored for it, and the child is still a zombie. */
  ghost predicate WokenWithoutResult(s: State) {
    && s.running == Some(0) && s.pcb[0].retval == 1 && 100 !in s.mem
    && s.zombie == [1] && 1 in s.pcbPool.live && s.pcb[1].returnValue == 5
  }

  ghost predicate AfterSpawn(s: State) {
    Stage1(s) && s.pcb[0].retval == 1 && s.mem == map[] && 1 in s.pcbPool.live && s.pcb[1].status == Ready
  }

  lemma SpawnOne()
    ensures Safe(Boot(), Spawn(0, 0)) && AfterSpawn(Step(Boot(), Spawn(0, 0)))
  {
    To1();
    assert Boot().pcbPool.free[0] == 1;
  }

  lemma InitBlocks(s: State)
    requires AfterSpawn(s)
    ensures Safe(s, Wait(0, 100)) && ChildRunsReady(Step(s, Wait(0, 100)))
  {
  }

  lemma ChildExits(s: State)
    requires ChildRunsReady(s)
    ensures Safe(s, Exit(5)) && WokenWithoutResult(Step(s, Exit(5)))
  {
    hide LoopEnds;
    ExitSafeExactly(Trap(s, Exit(5)));
  }

  /** After init has blocked in wait, its child runs with status Ready. */
  lemma RunningCanBeReady()
    ensures RunSafe(Boot(), [Spawn(0, 0), Wait(0, 100)])
    ensures ChildRunsReady(Run(Boot(), [Spawn(0, 0), Wait(0, 100)]))
  {
    hide Safe, Step, AfterSpawn, ChildRunsReady;
    SpawnOne();
    var s1 := Step(Boot(), Spawn(0, 0));
    InitBlocks(s1);
    RunCons(s1, Wait(0, 100), []);
    RunCons(Boot(), Spawn(0, 0), [Wait(0, 100)]);
    assert [Wait(0, 100)] + [] == [Wait(0, 100)];
    assert [Spawn(0, 0)] + [Wait(0, 100)] == [Spawn(0, 0), Wait(0, 100)];
  }

  /** When the child exits, init is woken, but its wait has delivered nothing. */
  lemma BlockedWaitGetsNothing()
    ensures RunSafe(Boot(), [Spawn(0, 0), Wait(0, 100), Exit(5)])
    ensures WokenWithoutResult(Run(Boot(), [Spawn(0, 0), Wait(0, 100), Exit(5)]))
  {
    hide Safe, Step, ChildRunsReady, WokenWithoutResult, Run, RunSafe;
    RunningCanBeReady();
    ChildExits(Run(Boot(), [Spawn(0, 0), Wait(0, 100)]));
    RunSnoc(Boot(), [Spawn(0, 0), Wait(0, 100)], Exit(5));
    assert [Spawn(0, 0), Wait(0, 100)] + [Exit(5)] == [Spawn(0, 0), Wait(0, 100), Exit(5)];
  }

  // ---------- a descriptor that nobody can close ----------

  /** No resource yet; the first block of each pool is block 0. */
  ghost predicate NoFiles(s: State) {
    && s.resList == [] && s.resPool.live == map[] && s.desPool.live == map[]
    && s.resPool.free != [] && s.resPool.free[0] == 0
    && s.desPool.free != [] && s.desPool.free[0] == 0 && s.desPtrPool.free == s.desPool.free
  }

  /** Init has the one child in block 1, which has no children. */
  ghost predicate OneChild(s: State) {
    && s.initPcb == 0 && |s.pcb[0].children| == 1 && s.pcb[0].children[0].pcb == 1
    && s.pcb[1].parent == Some(0) && s.pcb[1].children == [] && s.pcb[1].pid == 1
    && s.pcbPool.live == map[0 := (), 1 := ()] && s.pcb[0].descriptors == []
    && s.waiting == [] && s.timers == [] && s.lastPid == 2 && s.ptrPool.free != []
  }

  ghost predicate ChildStarts(s: State) {
    && OneChild(s) && NoFiles(s) && s.running == Some(1) && s.ready == [0] && s.zombie == []
    && s.pcb[0].status == Ready && s.pcb[1].descriptors == [] && s.pcb[1].lastFd == 0
  }

  /** The child has resource 7 open, under number 0. */
  ghost predicate HasOpened(s: State) {
    && s.pcb[1].descriptors == [Descriptor(0, 1, 0, 0, 0)] && s.pcb[1].lastFd == 1
    && s.desPool.live == map[0 := Descriptor(0, 1, 0, 0, 0)]
    && s.resList == [0] && 0 in s.resPool.live && s.resPool.live[0] == Resource(7, 0, [DescriptorPtr(0, 0)])
  }

  ghost predicate ChildOpened(s: State) {
    OneChild(s) && HasOpened(s) && s.running == Some(1) && s.ready == [0] && s.zombie == [] && s.pcb[0].status == Ready
  }

  ghost predicate ChildExited(s: State) {
    OneChild(s) && HasOpened(s) && s.running == Some(0) && s.ready == [] && s.zombie == [1]
  }

  /** The child is gone; its descriptor and the resource are still there. */
  ghost predicate ChildReaped(s: State) {
    && HasOpened(s) && s.pcbPool.live == map[0 := ()] && s.pcb[0].descriptors == [] && s.running == Some(0)
    && s.pcbPool.free != [] && s.pcbPool.free[0] == 1 && s.ptrPool.free != [] && s.lastPid == 2
  }

  lemma StartChild()
    ensures RunSafe(Boot(), [Spawn(0, 0), Preempt]) && ChildStarts(Run(Boot(), [Spawn(0, 0), Preempt]))
  {
    SpawnFirst();
    var s1 := Step(Boot(), Spawn(0, 0));
    hide Step, Safe, ChildStarts, ReadyChild;
    DispatchChild(s1);
    RunCons(s1, Preempt, []);
    RunCons(Boot(), Spawn(0, 0), [Preempt]);
    assert [Preempt] + [] == [Preempt] && [Spawn(0, 0)] + [Preempt] == [Spawn(0, 0), Preempt];
  }

  ghost predicate ReadyChild(s: State) {
    && OneChild(s) && NoFiles(s) && s.running == Some(0) && s.ready == [1] && s.zombie == []
    && s.pcb[1].descriptors == [] && s.pcb[1].lastFd == 0
  }

  lemma SpawnFirst()
    ensures Safe(Boot(), Spawn(0, 0)) && ReadyChild(Step(Boot(), Spawn(0, 0)))
  {
    var s := Boot();
    assert s.pcbPool.free[0] == 1 && s.ptrPool.free[1] == 1;
    assert s.pcbPool.live == map[0 := ()];
  }

  lemma DispatchChild(s: State)
    requires ReadyChild(s)
    ensures Safe(s, Preempt) && ChildStarts(Step(s, Preempt))
  {
  }

  lemma ChildOpens(s: State)
    requires ChildStarts(s)
    ensures Safe(s, Open(7, 0, 1)) && ChildOpened(Step(s, Open(7, 0, 1)))
  {
    assert s.desPool.live[0 := Descriptor(0, 1, 0, 0, 0)] == map[0 := Descriptor(0, 1, 0, 0, 0)];
  }

  lemma OpenerExits(s: State)
    requires ChildOpened(s)
    ensures Safe(s, Exit(0)) && ChildExited(Step(s, Exit(0)))
  {
    hide LoopEnds;
    ExitSafeExactly(Trap(s, Exit(0)));
  }

  lemma InitReaps(s: State)
    requires ChildExited(s)
    ensures Safe(s, Wait(0, 0)) && ChildReaped(Step(s, Wait(0, 0)))
  {
    assert s.pcbPool.live - {1} == map[0 := ()];
  }

  const CALLS_THAT_ORPHAN := [Spawn(0, 0), Preempt, Open(7, 0, 1), Exit(0), Wait(0, 0)]

  lemma ReapingRun()
    ensures RunSafe(Boot(), CALLS_THAT_ORPHAN) && ChildReaped(Run(Boot(), CALLS_THAT_ORPHAN))
  {
    hide Safe, Step, Run, RunSafe, ChildStarts, ChildOpened, ChildExited, ChildReaped;
    StartChild();
    var ops2 := [Spawn(0, 0), Preempt];
    ChildOpens(Run(Boot(), ops2));
    RunSnoc(Boot(), ops2, Open(7, 0, 1));
    var ops3 := ops2 + [Open(7, 0, 1)];
    OpenerExits(Run(Boot(), ops3));
    RunSnoc(Boot(), ops3, Exit(0));
    var ops4 := ops3 + [Exit(0)];
    InitReaps(Run(Boot(), ops4));
    RunSnoc(Boot(), ops4, Wait(0, 0));
    assert ops4 + [Wait(0, 0)] == CALLS_THAT_ORPHAN;
  }

  /** A child opens resource 7 and exits, and init reaps it: block 0 holds a descriptor that is
      in no process's list, and in every continuation destroying resource 7 is refused. */
  lemma LeftOpenForEver(more: seq<Op>)
    ensures RunSafe(Boot(), CALLS_THAT_ORPHAN)
    ensures Orphan(Run(Boot(), CALLS_THAT_ORPHAN), 0)
    ensures RunSafe(Run(Boot(), CALLS_THAT_ORPHAN), more) ==>
      var s := Run(Run(Boot(), CALLS_THAT_ORPHAN), more);
      && Orphan(s, 0)
      && (s.running.Some? ==> Safe(s, Destroy(7)) && Step(s, Destroy(7)).pcb[s.running.value].retval == ERESOURCEINUSE)
  {
    hide Inv, Run, RunSafe, Step, Safe;
    ReapingRun();
    var s := Run(Boot(), CALLS_THAT_ORPHAN);
    BootInv();
    RunKeeps(Boot(), CALLS_THAT_ORPHAN);
    if RunSafe(s, more) {
      OrphansStay(s, more, 0);
      NeverDestroyed(s, more, 0);
    }
  }

  // ---------- numbers that go on ----------

  lemma SpawnAgain(s: State)
    requires ChildReaped(s)
    ensures Safe(s, Spawn(0, 0))
    ensures var s' := Step(s, Spawn(0, 0));
      Live(s', 1) && s'.pcb[1].pid == 2 && s'.pcb[1].descriptors == [] && s'.pcb[1].lastFd == 1
  {
  }

  /** The next process gets the same block, and although it has opened nothing, its first
      descriptor will have number 1. */
  lemma NumbersGoOn()
    ensures RunSafe(Boot(), CALLS_THAT_ORPHAN + [Spawn(0, 0)])
    ensures var s := Run(Boot(), CALLS_THAT_ORPHAN + [Spawn(0, 0)]);
      Live(s, 1) && s.pcb[1].pid == 2 && s.pcb[1].descriptors == [] && s.pcb[1].lastFd == 1
  {
    hide Safe, Step, Run, RunSafe, ChildReaped;
    ReapingRun();
    SpawnAgain(Run(Boot(), CALLS_THAT_ORPHAN));
    RunSnoc(Boot(), CALLS_THAT_ORPHAN, Spawn(0, 0));
  }
}
