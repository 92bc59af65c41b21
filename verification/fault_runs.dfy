/** Short runs from boot that reach a call which is not sound. */
module FaultRuns {
  import opened Wrappers
  import opened KernelState
  import opened Syscalls
  import opened Invariants
  import opened ExitLoop
  import opened Counting
  import opened Faults
  import opened Steps
  import opened StrandedInit

  /** Init runs and the child it spawned sleeps; nobody is ready. */
  ghost predicate ChildSleeps(s: State) {
    && s.running == Some(0) && s.ready == [] && s.zombie == [] && s.pcb[0].children != []
  }

  ghost predicate ChildRuns(s: State) {
    && s.running == Some(1) && s.ready == [0] && s.zombie == [] && s.timers == [] && s.timerPool.free != []
    && s.pcb[0].children != [] && s.pcb[1].timer == None
  }

  lemma SpawnThenPreempt()
    ensures RunSafe(Boot(), [Spawn(0, 0), Preempt]) && ChildRuns(Run(Boot(), [Spawn(0, 0), Preempt]))
  {
    hide Stage1;
    To1();
    var s1 := Step(Boot(), Spawn(0, 0));
    SpawnedChild(s1);
    RunCons(s1, Preempt, []);
    RunCons(Boot(), Spawn(0, 0), [Preempt]);
  }

  lemma SpawnedChild(s: State)
    requires s == Step(Boot(), Spawn(0, 0)) && Stage1(s)
    ensures Safe(s, Preempt) && ChildRuns(Step(s, Preempt))
  {
  }

  lemma ThenSleep(s: State)
    requires ChildRuns(s)
    ensures Safe(s, Sleep(5)) && ChildSleeps(Step(s, Sleep(5)))
  {
  }

  lemma NobodyToDispatch(s: State)
    requires ChildSleeps(s)
    ensures !Safe(s, Wait(0, 0))
  {
  }

  lemma {:induction false} RunSnoc(s: State, ops: seq<Op>, op: Op)
    requires RunSafe(s, ops) && Safe(Run(s, ops), op)
    ensures RunSafe(s, ops + [op]) && Run(s, ops + [op]) == Step(Run(s, ops), op)
    decreases |ops|
  {
    if ops == [] {
      RunCons(s, op, []);
      assert [op] + [] == [op] && [] + [op] == [op];
    } else {
      RunSnoc(Step(s, ops[0]), ops[1..], op);
      RunCons(s, ops[0], ops[1..] + [op]);
      assert [ops[0]] + (ops[1..] + [op]) == ops + [op];
    }
  }

  /** A wait that has to block faults when nobody is ready: init spawns a child, the child
      goes to sleep, and init waits for it. */
  lemma WaitCanFault()
    ensures RunSafe(Boot(), [Spawn(0, 0), Preempt, Sleep(5)])
    ensures !Safe(Run(Boot(), [Spawn(0, 0), Preempt, Sleep(5)]), Wait(0, 0))
  {
    hide Safe, Step, ChildRuns, ChildSleeps, Run, RunSafe;
    SpawnThenPreempt();
    ThenSleep(Run(Boot(), [Spawn(0, 0), Preempt]));
    RunSnoc(Boot(), [Spawn(0, 0), Preempt], Sleep(5));
    assert [Spawn(0, 0), Preempt] + [Sleep(5)] == [Spawn(0, 0), Preempt, Sleep(5)];
    NobodyToDispatch(Run(Boot(), [Spawn(0, 0), Preempt, Sleep(5)]));
  }

  /** Init exiting with a child never leaves the loop that hands children over to init: it
      spawns one child, and when it exits, every turn of the loop takes the link to the child
      off its list and puts the same link back. */
  lemma InitExitCanHang(n: nat)
    ensures RunSafe(Boot(), [Spawn(0, 0)])
    ensures var s := Run(Boot(), [Spawn(0, 0)]);
      && s.running == Some(s.initPcb)
      && Turns(LoopStart(s, 0), s.initPcb, n) == LoopStart(s, 0)
      && LoopStart(s, 0).pcb[s.initPcb].children != []
  {
    hide Stage1;
    To1();
    RunCons(Boot(), Spawn(0, 0), []);
    assert [Spawn(0, 0)] + [] == [Spawn(0, 0)];
    InitHasChild(Step(Boot(), Spawn(0, 0)), n);
  }

  lemma InitHasChild(s: State, n: nat)
    requires Stage1(s)
    ensures s.running == Some(s.initPcb) && LoopStart(s, 0).pcb[s.initPcb].children != []
    ensures Turns(LoopStart(s, 0), s.initPcb, n) == LoopStart(s, 0)
  {
    var t := LoopStart(s, 0);
    InitTurns(t, n);
    RotatedOne(t.pcb[0].children, n);
  }

  lemma {:induction false} RotatedOne<T>(xs: seq<T>, n: nat)
    requires |xs| == 1
    ensures Rotated(xs, n) == xs
    decreases n
  {
    if n > 0 {
      assert xs[1..] + [xs[0]] == xs;
      RotatedOne(xs, n - 1);
    }
  }

  // ---------- the process table fills up ----------

  function Spawns(n: nat): seq<Op> {
    if n == 0 then [] else Spawns(n - 1) + [Spawn(0, 0)]
  }

  /** Init runs, nobody waits, and `n` PCB blocks are in use. */
  ghost predicate Spawned(s: State, n: nat) {
    && Inv(s) && s.running == Some(s.initPcb) && s.waiting == []
    && |s.pcbPool.live| == n
  }

  lemma NoQueueWaiters(s: State)
    requires s.waiting == []
    ensures |QueueWaiters(s)| == 0
  {
    assert QueueWaiters(s) == {};
  }

  lemma SpawnCounts(s: State, n: nat)
    requires ListsInv(s) && s.pcbPool.Wf(MAX_NUM_PROCESSES) && s.running == Some(s.initPcb) && s.waiting == []
    requires |s.pcbPool.live| == n && Safe(s, Spawn(0, 0))
    ensures var s' := Step(s, Spawn(0, 0));
      s'.running == Some(s'.initPcb) && s'.waiting == [] && |s'.pcbPool.live| == n + 1
  {
    s.pcbPool.TakeKeeps((), MAX_NUM_PROCESSES);
    assert |s.pcbPool.live.Keys + {s.pcbPool.free[0]}| == |s.pcbPool.live.Keys| + 1;
  }

  lemma InvPcbPool(s: State)
    requires Inv(s)
    ensures ListsInv(s) && s.pcbPool.Wf(MAX_NUM_PROCESSES)
  {
  }

  lemma {:induction false} SpawnMany(n: nat)
    requires n < MAX_NUM_PROCESSES
    ensures RunSafe(Boot(), Spawns(n)) && Spawned(Run(Boot(), Spawns(n)), n + 1)
  {
    hide Inv, Step, Safe, LinksExhausted;
    if n == 0 {
      BootInv();
      BootCount();
    } else {
      SpawnMany(n - 1);
      var s := Run(Boot(), Spawns(n - 1));
      CanSpawn(s, n);
      InvPcbPool(s);
      RunSnoc(Boot(), Spawns(n - 1), Spawn(0, 0));
      StepKeeps(s, Spawn(0, 0));
      SpawnCounts(s, n);
    }
  }

  lemma BootCount()
    ensures |Boot().pcbPool.live| == 1
  {
    assert Boot().pcbPool.live == map[AllRefs()[0] := ()];
  }

  lemma CanSpawn(s: State, n: nat)
    requires Spawned(s, n)
    ensures Safe(s, Spawn(0, 0)) <==> n < MAX_NUM_PROCESSES
  {
    hide Inv, Safe;
    SafeExactly(s, Spawn(0, 0));
    NoQueueWaiters(s);
    PoolSizes(s);
  }

  /** The error code for a failed spawn is never returned: the first spawn that finds the
      process table full faults instead. 1023 spawns fill the table. */
  lemma SpawnFaultsWhenFull()
    ensures RunSafe(Boot(), Spawns(MAX_NUM_PROCESSES - 1))
    ensures !Safe(Run(Boot(), Spawns(MAX_NUM_PROCESSES - 1)), Spawn(0, 0))
  {
    hide Spawned, RunSafe, Run, Spawns;
    SpawnMany(MAX_NUM_PROCESSES - 1);
    CanSpawn(Run(Boot(), Spawns(MAX_NUM_PROCESSES - 1)), MAX_NUM_PROCESSES);
  }
}
