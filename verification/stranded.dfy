/** A run of six calls after which init waits for ever for a child that is already a zombie:
    its grandchild died first, and became its child when the child in between exited. */
module StrandedInit {
  import opened Wrappers
  import opened KernelState
  import opened Syscalls
  import opened ExitLoop
  import opened FamilyTree

  /** Init (block 0) has spawned a process (block 1). */
  ghost predicate Stage1(s: State) {
    && s.initPcb == 0 && s.running == Some(0) && s.ready == [1] && s.waiting == [] && s.zombie == []
    && s.timers == [] && s.lastPid == 2
    && |s.pcb[0].children| == 1 && s.pcb[0].children[0].pcb == 1
    && s.pcb[1].children == [] && s.pcb[1].parent == Some(0) && s.pcb[1].pid == 1
    && s.pcbPool.free != [] && s.pcbPool.free[0] == 2 && s.ptrPool.free != []
  }

  /** Init waits for the pid that will be handed out next. */
  ghost predicate InitWaits(s: State) {
    && s.initPcb == 0 && s.waiting == [0] && s.timers == []
    && s.pcb[0].status == Waiting && s.pcb[0].syscallNum == CALL_WAIT && s.pcb[0].arg0 == 2
  }

  ghost predicate Stage2(s: State) {
    && InitWaits(s) && s.running == Some(1) && s.ready == [] && s.zombie == [] && s.lastPid == 2
    && s.pcb[1].children == [] && s.pcb[1].parent == Some(0) && s.pcb[1].pid == 1
    && s.pcbPool.free != [] && s.pcbPool.free[0] == 2 && s.ptrPool.free != []
  }

  /** The process in block 1 has the child that init waits for, in block 2. */
  ghost predicate HasGrandchild(s: State) {
    && |s.pcb[1].children| == 1 && s.pcb[1].children[0].pcb == 2
    && s.pcb[1].parent == Some(0) && s.pcb[1].pid == 1
    && s.pcb[2].children == [] && s.pcb[2].parent == Some(1) && s.pcb[2].pid == 2
  }

  ghost predicate Stage3(s: State) {
    InitWaits(s) && HasGrandchild(s) && s.running == Some(1) && s.ready == [2] && s.zombie == []
  }

  ghost predicate Stage4(s: State) {
    InitWaits(s) && HasGrandchild(s) && s.running == Some(2) && s.ready == [1] && s.zombie == []
    && s.pcb[1].status == Ready
  }

  ghost predicate Stage5(s: State) {
    InitWaits(s) && HasGrandchild(s) && s.running == Some(1) && s.ready == [] && s.zombie == [2]
  }

  /** Nobody runs, nobody is ready, no timer is set, and init waits for a zombie of its own. */
  ghost predicate Deadlock(s: State) {
    && InitWaits(s) && s.running == None && s.ready == []
    && 2 in s.zombie && s.pcb[2].parent == Some(0) && s.pcb[2].pid == 2
  }

  lemma To1()
    ensures Safe(Boot(), Spawn(0, 0)) && Stage1(Step(Boot(), Spawn(0, 0)))
  {
    var s := Boot();
    assert s.pcbPool.free[0] == 1 && s.pcbPool.free[1] == 2 && s.ptrPool.free[1] == 1;
  }

  lemma To2(s: State)
    requires Stage1(s)
    ensures Safe(s, Wait(2, 0)) && Stage2(Step(s, Wait(2, 0)))
  {
  }

  lemma To3(s: State)
    requires Stage2(s)
    ensures Safe(s, Spawn(0, 0)) && Stage3(Step(s, Spawn(0, 0)))
  {
  }

  lemma To4(s: State)
    requires Stage3(s)
    ensures Safe(s, Preempt) && Stage4(Step(s, Preempt))
  {
  }

  lemma To5(s: State)
    requires Stage4(s)
    ensures Safe(s, Exit(0)) && Stage5(Step(s, Exit(0)))
  {
    hide LoopEnds;
    ExitSafeExactly(Trap(s, Exit(0)));
  }

  lemma AdoptsGrandchild(s: State)
    requires HasGrandchild(s) && InitWaits(s)
    ensures ReparentAll(s, 1) == ReparentOne(s, 1)
  {
    assert ReparentOne(s, 1).pcb[1].children == [];
  }

  lemma To6(s: State)
    requires Stage5(s)
    ensures Safe(s, Exit(0)) && Deadlock(Step(s, Exit(0)))
  {
    hide ReparentAll, LoopEnds;
    var t := Trap(s, Exit(0));
    ExitSafeExactly(t);
    AdoptsGrandchild(SetPcb(t, 1, t.pcb[1].(returnValue := t.pcb[1].arg0)));
  }

  lemma RunCons(s: State, op: Op, ops: seq<Op>)
    requires Safe(s, op) && RunSafe(Step(s, op), ops)
    ensures RunSafe(s, [op] + ops) && Run(s, [op] + ops) == Run(Step(s, op), ops)
  {
    assert ([op] + ops)[1..] == ops;
  }

  /** In a deadlock only ticks can happen, and they change nothing. */
  lemma {:induction false} DeadlockLasts(s: State, ops: seq<Op>)
    requires Deadlock(s) && RunSafe(s, ops)
    ensures Deadlock(Run(s, ops))
    decreases |ops|
  {
    if ops != [] {
      assert Deadlock(Step(s, ops[0]));
      DeadlockLasts(Step(s, ops[0]), ops[1..]);
    }
  }

  lemma DeadlockStrands(s: State)
    requires Deadlock(s)
    ensures Stranded(s)
  {
    assert 2 in s.zombie && Awaited(s, 2, 0, 2);
  }

  const CALLS_THAT_STRAND_INIT := [Spawn(0, 0), Wait(2, 0), Spawn(0, 0), Preempt, Exit(0), Exit(0)]

  lemma StrandingRun()
    ensures RunSafe(Boot(), CALLS_THAT_STRAND_INIT) && Deadlock(Run(Boot(), CALLS_THAT_STRAND_INIT))
  {
    hide Step, Safe, Stage1, Stage2, Stage3, Stage4, Stage5, Deadlock;
    var s0 := Boot();
    To1();
    var s1 := Step(s0, Spawn(0, 0));
    To2(s1);
    var s2 := Step(s1, Wait(2, 0));
    To3(s2);
    var s3 := Step(s2, Spawn(0, 0));
    To4(s3);
    var s4 := Step(s3, Preempt);
    To5(s4);
    var s5 := Step(s4, Exit(0));
    To6(s5);
    RunCons(s5, Exit(0), []);
    RunCons(s4, Exit(0), [Exit(0)]);
    RunCons(s3, Preempt, [Exit(0), Exit(0)]);
    RunCons(s2, Spawn(0, 0), [Preempt, Exit(0), Exit(0)]);
    RunCons(s1, Wait(2, 0), [Spawn(0, 0), Preempt, Exit(0), Exit(0)]);
    RunCons(s0, Spawn(0, 0), [Wait(2, 0), Spawn(0, 0), Preempt, Exit(0), Exit(0)]);
    assert [Exit(0)] + [] == [Exit(0)] && [Exit(0)] + [Exit(0)] == [Exit(0), Exit(0)];
    assert [Preempt] + [Exit(0), Exit(0)] == [Preempt, Exit(0), Exit(0)];
    assert [Spawn(0, 0)] + [Preempt, Exit(0), Exit(0)] == [Spawn(0, 0), Preempt, Exit(0), Exit(0)];
    assert [Wait(2, 0)] + [Spawn(0, 0), Preempt, Exit(0), Exit(0)] ==
           [Wait(2, 0), Spawn(0, 0), Preempt, Exit(0), Exit(0)];
    assert [Spawn(0, 0)] + [Wait(2, 0), Spawn(0, 0), Preempt, Exit(0), Exit(0)] == CALLS_THAT_STRAND_INIT;
  }

  /** After these six calls init stays blocked for ever, with the zombie it waits for among
      its children. */
  lemma InitCanHangForever(more: seq<Op>)
    ensures RunSafe(Boot(), CALLS_THAT_STRAND_INIT)
    ensures RunSafe(Run(Boot(), CALLS_THAT_STRAND_INIT), more) ==>
      Stranded(Run(Run(Boot(), CALLS_THAT_STRAND_INIT), more))
  {
    hide Run, RunSafe, Deadlock;
    StrandingRun();
    if RunSafe(Run(Boot(), CALLS_THAT_STRAND_INIT), more) {
      DeadlockLasts(Run(Boot(), CALLS_THAT_STRAND_INIT), more);
      DeadlockStrands(Run(Run(Boot(), CALLS_THAT_STRAND_INIT), more));
    }
  }
}
