/** Descriptor numbers follow the PCB block, not the process: the next number of a block is the
    number of opens that have succeeded while the block had the processor. */
module Numbering {
  import opened Wrappers
  import opened Seqs
  import opened KernelState
  import opened Syscalls
  import opened Invariants
  import opened Blocking
  import opened Descriptors

  /** The guards of open, on the state before the call. */
  predicate OpenSucceeds(s: State, op: Op) {
    && s.running.Some? && op.Open?
    && if CreateBit(op.mode) then
         ResourceById(s.resPool.live, s.resList, op.id).None? && s.desPool.free != []
       else
         Opens(s, op.id, op.rtype, op.mode)
  }

  ghost predicate KeepsNumbers(s: State, s': State) {
    forall b: Ref :: s'.pcb[b].lastFd == s.pcb[b].lastFd
  }

  lemma NumbersTrans(s: State, u: State, v: State)
    requires KeepsNumbers(s, u) && KeepsNumbers(u, v)
    ensures KeepsNumbers(s, v)
  {
  }

  lemma PickNextNumbers(s: State, mark: bool)
    ensures KeepsNumbers(s, PickNext(s, mark))
  {
  }

  lemma ScheduleNumbers(s: State)
    ensures KeepsNumbers(s, Schedule(s))
  {
  }

  lemma {:induction false} WakeDueNumbers(s: State)
    ensures KeepsNumbers(s, WakeDue(s))
    decreases |s.timers|
  {
    if s.timers != [] && s.timers[0].wake <= s.time { WakeDueNumbers(WakeFirst(s)); }
  }

  lemma TickNumbers(s: State)
    ensures KeepsNumbers(s, DoTick(s))
  {
    hide WakeDue, Schedule;
    WakeDueNumbers(s.(time := s.time + 1));
    ScheduleNumbers(WakeDue(s.(time := s.time + 1)));
  }

  lemma SpawnNumbers(s: State)
    requires s.running.Some? && SpawnSafe(s)
    ensures KeepsNumbers(s, DoSpawn(s))
  {
  }

  lemma ReapNumbers(s: State, r: Ref, z: Ref, out: int)
    ensures KeepsNumbers(s, Reap(s, r, z, out)) && Reap(s, r, z, out).running == s.running
  {
  }

  lemma WaitNumbers(s: State)
    requires s.running.Some? && WaitSafe(s)
    ensures KeepsNumbers(s, DoWait(s))
  {
    hide Reap, PickNext, FindZombie;
    var r := s.running.value;
    var z := FindZombie(s, s.zombie, r, s.pcb[r].arg0);
    if WaitBlocks(s) {
      PickNextNumbers(Park(s), false);
    } else if z.Some? {
      ReapNumbers(s, r, z.value, s.pcb[r].arg1);
    }
  }

  lemma {:induction false} ReparentNumbers(s: State, r: Ref)
    requires r != s.initPcb
    ensures KeepsNumbers(s, ReparentAll(s, r))
    decreases |s.pcb[r].children|
  {
    if s.pcb[r].children != [] { ReparentNumbers(ReparentOne(s, r), r); }
  }

  lemma AdoptNumbers(s: State)
    requires s.running.Some? && ExitSafe(s)
    ensures KeepsNumbers(s, Adopt(s))
  {
    hide ReparentAll, LoopEnds;
    var r := s.running.value;
    if r != s.initPcb { ReparentNumbers(SetPcb(s, r, s.pcb[r].(returnValue := s.pcb[r].arg0)), r); }
  }

  lemma BuryNumbers(s: State, r: Ref)
    ensures KeepsNumbers(s, NotifyParent(Bury(s, r), r))
  {
  }

  lemma ExitNumbers(s: State)
    requires s.running.Some? && ExitSafe(s)
    ensures KeepsNumbers(s, DoExit(s))
  {
    hide KeepsNumbers, PickNext, Adopt, Bury, NotifyParent, LoopEnds;
    var s1, r := Adopt(s), s.running.value;
    var s2 := NotifyParent(Bury(s1, r), r);
    AdoptNumbers(s);
    BuryNumbers(s1, r);
    PickNextNumbers(s2, true);
    NumbersTrans(s, s1, s2);
    NumbersTrans(s, s2, PickNext(s2, true));
  }

  lemma SleepNumbers(s: State)
    requires s.running.Some?
    ensures KeepsNumbers(s, DoSleep(s))
  {
    hide TimerInsert;
  }

  lemma CreateNumbers(s: State)
    requires s.running.Some?
    ensures KeepsNumbers(s, DoCreate(s))
  {
  }

  lemma DeleteNumbers(s: State)
    requires s.running.Some?
    ensures KeepsNumbers(s, DoDelete(s))
  {
    hide GiveItems;
  }

  lemma PutNumbers(s: State)
    requires s.running.Some? && PutSafe(s)
    ensures KeepsNumbers(s, DoPut(s))
  {
    hide PickNext;
    if PutBlocks(s) { PickNextNumbers(Joined(s, s.pcb[s.running.value].arg0, false), true); }
  }

  lemma RefillNumbers(s: State, id: int)
    requires id in s.queues
    ensures KeepsNumbers(s, Refill(s, id)) && Refill(s, id).running == s.running
  {
  }

  lemma GetNumbers(s: State)
    requires s.running.Some? && GetSafe(s)
    ensures KeepsNumbers(s, DoGet(s))
  {
    hide PickNext, Refill;
    var id, out := s.pcb[s.running.value].arg0, s.pcb[s.running.value].arg1;
    if GetBlocks(s) {
      PickNextNumbers(Joined(s, id, true), true);
    } else if id in s.queues && s.queues[id].items != [] {
      RefillNumbers(TakeItem(s, id, out), id);
    }
  }

  lemma CloseNumbers(s: State)
    requires s.running.Some?
    ensures KeepsNumbers(s, DoClose(s))
  {
    hide DescriptorByFd, Remove, RemoveAt;
  }

  lemma DestroyNumbers(s: State)
    requires s.running.Some?
    ensures KeepsNumbers(s, DoDestroy(s))
  {
    hide ResourceById, Remove;
  }

  lemma OtherCallNumbers(s: State, op: Op)
    requires s.running.Some? && !op.Tick? && !op.Open? && HandlerSafe(s, op)
    ensures KeepsNumbers(s, Handler(s, op))
  {
    hide KeepsNumbers, Schedule, DoSpawn, DoWait, DoExit, DoSleep, DoCreate, DoDelete, DoPut, DoGet, DoClose, DoDestroy;
    match op
    case Preempt => ScheduleNumbers(s);
    case Fork => SpawnNumbers(s);
    case Spawn(_, _) => SpawnNumbers(s);
    case Wait(_, _) => WaitNumbers(s);
    case Exit(_) => ExitNumbers(s);
    case Sleep(_) => SleepNumbers(s);
    case Create(_, _) => CreateNumbers(s);
    case Delete(_) => DeleteNumbers(s);
    case Put(_, _) => PutNumbers(s);
    case Get(_, _) => GetNumbers(s);
    case Close(_) => CloseNumbers(s);
    case Destroy(_) => DestroyNumbers(s);
  }

  // ---------- open ----------

  /** How many numbers the step uses up for block `b`. */
  function Used(s: State, op: Op, b: Ref): nat {
    if OpenSucceeds(s, op) && s.running == Some(b) then 1 else 0
  }

  lemma OpenFoundNumbers(s: State, rb: nat)
    requires s.running.Some? && rb in s.resPool.live
    requires s.desPool.free != [] ==> s.desPtrPool.free != []
    ensures var r, s' := s.running.value, OpenFound(s, rb);
      var res := s.resPool.live[rb];
      && (forall b: Ref :: b != r ==> s'.pcb[b].lastFd == s.pcb[b].lastFd)
      && s'.pcb[r].lastFd == s.pcb[r].lastFd +
           if res.rtype == s.pcb[r].arg1 && !(ExclBit(s.pcb[r].arg2) && res.descriptorPtrs != [])
              && s.desPool.free != [] then 1 else 0
  {
  }

  lemma OpenNumbers(s: State, op: Op)
    requires s.running.Some? && op.Open? && OpenSafe(s)
    requires s.pcb[s.running.value] == WithArgs(s.pcb[s.running.value], op)
    ensures forall b: Ref :: DoOpen(s).pcb[b].lastFd == s.pcb[b].lastFd + Used(s, op, b)
  {
    hide OpenFound, ResourceById;
    var found := ResourceById(s.resPool.live, s.resList, op.id);
    if CreateBit(op.mode) && found.None? {
      OpenFoundNumbers(AddResource(s, op.id, op.rtype), s.resPool.free[0]);
    } else if !CreateBit(op.mode) && found.Some? {
      OpenFoundNumbers(s, found.value);
    }
  }

  lemma TrapNumbers(s: State, op: Op)
    requires s.running.Some? && !op.Tick?
    ensures KeepsNumbers(s, Trap(s, op))
    ensures forall b: Ref :: Used(Trap(s, op), op, b) == Used(s, op, b)
  {
  }

  /** A step uses up one number of the block that runs if it is an open that succeeds, and no
      other number. */
  lemma StepNumbers(s: State, op: Op, b: Ref)
    requires Safe(s, op)
    ensures Step(s, op).pcb[b].lastFd == s.pcb[b].lastFd + Used(s, op, b)
  {
    hide DoTick, Handler, HandlerSafe, OpenSucceeds;
    if op.Tick? {
      TickNumbers(s);
      TickOpensNothing(s, op);
    } else {
      var t := Trap(s, op);
      TrapNumbers(s, op);
      if op.Open? { OpenCallNumbers(t, op); } else { OtherCallNumbers(t, op); TickOpensNothing(s, op); }
    }
  }

  lemma TickOpensNothing(s: State, op: Op)
    ensures !op.Open? ==> !OpenSucceeds(s, op)
  {
  }

  lemma OpenCallNumbers(s: State, op: Op)
    requires s.running.Some? && op.Open? && HandlerSafe(s, op)
    requires s.pcb[s.running.value] == WithArgs(s.pcb[s.running.value], op)
    ensures forall b: Ref :: Handler(s, op).pcb[b].lastFd == s.pcb[b].lastFd + Used(s, op, b)
  {
    hide DoOpen, OpenSafe, OpenSucceeds;
    OpenNumbers(s, op);
  }

  // ---------- whole runs ----------

  /** How many opens succeed during the run while block `b` has the processor. */
  function OpensBy(s: State, ops: seq<Op>, b: Ref): nat
    requires RunSafe(s, ops)
    decreases |ops|
  {
    if ops == [] then 0 else Used(s, ops[0], b) + OpensBy(Step(s, ops[0]), ops[1..], b)
  }

  lemma {:induction false} RunNumbers(s: State, ops: seq<Op>, b: Ref)
    requires RunSafe(s, ops)
    ensures Run(s, ops).pcb[b].lastFd == s.pcb[b].lastFd + OpensBy(s, ops, b)
    decreases |ops|
  {
    hide Step, Safe, Used;
    if ops != [] {
      StepNumbers(s, ops[0], b);
      RunNumbers(Step(s, ops[0]), ops[1..], b);
    }
  }

  /** Some open of the run succeeds while block `b` has the processor. */
  ghost predicate OpensDuring(s: State, ops: seq<Op>, b: Ref)
    requires RunSafe(s, ops)
    decreases |ops|
  {
    ops != [] && ((OpenSucceeds(s, ops[0]) && s.running == Some(b)) || OpensDuring(Step(s, ops[0]), ops[1..], b))
  }

  lemma {:induction false} NoOpenCounted(s: State, ops: seq<Op>, b: Ref)
    requires RunSafe(s, ops)
    ensures OpensBy(s, ops, b) == 0 <==> !OpensDuring(s, ops, b)
    decreases |ops|
  {
    hide Step, Safe, OpenSucceeds;
    if ops != [] { NoOpenCounted(Step(s, ops[0]), ops[1..], b); }
  }

  lemma NoNumbersAtBoot(b: Ref)
    ensures Boot().pcb[b].lastFd == 0
  {
  }

  /** A new process takes the block at the head of the pool, with nothing open, and goes on with
      the numbers of that block. */
  lemma SpawnTakesOver(s: State, op: Op)
    requires Safe(s, op) && (op.Spawn? || op.Fork?)
    ensures s.running.Some? && s.pcbPool.free != []
    ensures var c, s' := s.pcbPool.free[0], Step(s, op);
      && Live(s', c) && s'.pcb[c].pid == s.lastPid && s'.pcb[c].descriptors == []
      && s'.pcb[c].lastFd == s.pcb[c].lastFd
  {
  }

  /** After a run from boot a new process numbers its descriptors from as many as were opened
      under its block; so from 0 exactly if no earlier process in that block opened anything. */
  lemma NewProcessNumbers(ops: seq<Op>, op: Op)
    requires RunSafe(Boot(), ops) && Safe(Run(Boot(), ops), op) && (op.Spawn? || op.Fork?)
    ensures var s := Run(Boot(), ops);
      && s.pcbPool.free != []
      && var c, s' := s.pcbPool.free[0], Step(s, op);
      && Live(s', c) && s'.pcb[c].pid == s.lastPid && s'.pcb[c].descriptors == []
      && s'.pcb[c].lastFd == OpensBy(Boot(), ops, c)
      && (s'.pcb[c].lastFd == 0 <==> !OpensDuring(Boot(), ops, c))
  {
    hide Run, RunSafe, Safe, Step, OpensBy, OpensDuring;
    var s := Run(Boot(), ops);
    SpawnTakesOver(s, op);
    NoOpenCounted(Boot(), ops, s.pcbPool.free[0]);
    RunNumbers(Boot(), ops, s.pcbPool.free[0]);
    NoNumbersAtBoot(s.pcbPool.free[0]);
  }
}
