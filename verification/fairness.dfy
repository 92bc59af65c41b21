/** Whole runs of the scheduler: nobody is starved, and the processor is never idle while
    somebody is ready. */
module Fairness {
  import opened Wrappers
  import opened Seqs
  import opened KernelState
  import opened Syscalls
  import opened Invariants
  import opened Blocking
  import opened Bystanders
  import opened Preservation
  import opened Steps
  import opened WakeUps

  /** A step either only appends to the ready list, or it also dispatches its head. */
  ghost predicate ReadyMoves(s: State, s': State) {
    || s.ready <= s'.ready
    || Dispatches(s, s')
  }

  ghost predicate Dispatches(s: State, s': State) {
    s.ready != [] && s'.running == Some(s.ready[0]) && s.ready[1..] <= s'.ready
  }

  lemma PickNextMoves(s: State, mark: bool)
    ensures s.ready == [] || Dispatches(s, PickNext(s, mark))
    ensures ReadyMoves(s, PickNext(s, mark))
  {
  }

  lemma ScheduleMoves(s: State)
    ensures s.ready == [] || Dispatches(s, Schedule(s))
    ensures ReadyMoves(s, Schedule(s))
  {
    if s.ready != [] && s.running != None {
      assert Yield(s).ready[1..] == s.ready[1..] + [s.running.value];
    }
  }

  lemma QueueCallMoves(s: State, op: Op)
    requires s.running.Some? && QueueCall(op) && HandlerSafe(s, op)
    ensures ReadyMoves(s, Handler(s, op))
  {
    hide PickNext, GiveItems;
    match op
    case Put(_, _) => PutMoves(s);
    case Get(_, _) => GetMoves(s);
    case _ =>
  }

  lemma PutMoves(s: State)
    requires s.running.Some? && PutSafe(s)
    ensures ReadyMoves(s, DoPut(s))
  {
    hide PickNext;
    var id := s.pcb[s.running.value].arg0;
    if PutBlocks(s) { PickNextMoves(Joined(s, id, false), true); }
  }

  lemma GetMoves(s: State)
    requires s.running.Some? && GetSafe(s)
    ensures ReadyMoves(s, DoGet(s))
  {
    hide PickNext;
    var id := s.pcb[s.running.value].arg0;
    if GetBlocks(s) { PickNextMoves(Joined(s, id, true), true); }
  }

  lemma ExitMoves(s: State)
    requires s.running.Some? && ExitSafe(s)
    ensures ReadyMoves(s, DoExit(s))
  {
    hide PickNext, Adopt, ParentAwaits;
    AdoptBystander(s);
    var r := s.running.value;
    PickNextMoves(NotifyParent(Bury(Adopt(s), r), r), true);
    if s.ready != [] {
      assert s.ready[1..] <= NotifyParent(Bury(Adopt(s), r), r).ready[1..];
    }
  }

  lemma WaitMoves(s: State)
    requires s.running.Some? && WaitSafe(s)
    ensures ReadyMoves(s, DoWait(s))
  {
    hide PickNext, Unlink;
    var r := s.running.value;
    if WaitBlocks(s) {
      PickNextMoves(Park(s), false);
    } else if s.pcb[r].children != [] {
      var z := FindZombie(s, s.zombie, r, s.pcb[r].arg0);
      UnlinkReady(s, r, s.pcb[z.value].pid, z.value);
    }
  }

  lemma UnlinkReady(s: State, r: Ref, pid: int, z: Ref)
    ensures var s1 := Unlink(s.(zombie := Remove(s.zombie, z)), r, pid);
      s1.ready == s.ready && s1.running == s.running
  {
  }

  lemma SleepMoves(s: State)
    requires s.running.Some?
    ensures ReadyMoves(s, DoSleep(s))
  {
    hide PickNext, TimerInsert;
    var r := s.running.value;
    if !(s.pcb[r].timer.Some? || s.timerPool.free == []) {
      PickNextMoves(Park(AddTimer(s, s.pcb[r].arg0)), false);
    }
  }

  lemma HandlerMoves(s: State, op: Op)
    requires s.running.Some? && !op.Tick? && HandlerSafe(s, op)
    ensures ReadyMoves(s, Handler(s, op))
  {
    hide Schedule, DoWait, DoExit, DoSleep, DoOpen, DoClose, DoDestroy, FreshPcb;
    if QueueCall(op) {
      QueueCallMoves(s, op);
    } else {
      match op
      case Preempt => ScheduleMoves(s);
      case Wait(_, _) => WaitMoves(s);
      case Exit(_) => ExitMoves(s);
      case Sleep(_) => SleepMoves(s);
      case Open(_, _, _) => OpenBystander(s);
      case Close(_) => CloseBystander(s);
      case Destroy(_) => DestroyBystander(s);
      case _ =>
    }
  }

  /** A tick dispatches the head of the ready list, if there is one. */
  lemma TickMoves(s: State)
    requires CoreInv(s) && s.ready != []
    ensures Dispatches(s, DoTick(s))
  {
    hide CoreInv, WakeDue, Schedule, HasDue;
    var s1 := s.(time := s.time + 1);
    LaterKeeps(s);
    HeadCheckWakesAllDue(s1);
    ScheduleMoves(WakeDue(s1));
    assert WakeDue(s1).ready[1..] == s.ready[1..] + Sleepers(Due(s1.timers, s1.time));
  }

  lemma StepMoves(s: State, op: Op)
    requires Inv(s) && Safe(s, op)
    ensures if op.Tick? && s.ready != [] then Dispatches(s, Step(s, op)) else ReadyMoves(s, Step(s, op))
  {
    hide CoreInv, Handler, DoTick;
    if op.Tick? {
      if s.ready != [] { TickMoves(s); }
    } else {
      HandlerMoves(Trap(s, op), op);
    }
  }

  // ---------- whole runs ----------

  function Ticks(ops: seq<Op>): nat {
    if ops == [] then 0 else (if ops[0].Tick? then 1 else 0) + Ticks(ops[1..])
  }

  /** At some point of the run `p` has the processor. */
  ghost predicate RunsDuring(s: State, ops: seq<Op>, p: Ref)
    requires RunSafe(s, ops)
    decreases |ops|
  {
    s.running == Some(p) || (ops != [] && RunsDuring(Step(s, ops[0]), ops[1..], p))
  }

  /** A process with `k` others before it in the ready list gets the processor within k + 1
      ticks, whatever calls are made in between. */
  lemma {:induction false} NobodyStarves(s: State, ops: seq<Op>, p: Ref, k: nat)
    requires Inv(s) && RunSafe(s, ops)
    requires k < |s.ready| && s.ready[k] == p
    requires k < Ticks(ops)
    ensures RunsDuring(s, ops, p)
    decreases |ops|
  {
    hide Inv, Step;
    var s' := Step(s, ops[0]);
    StepKeeps(s, ops[0]);
    StepMoves(s, ops[0]);
    if s'.running != Some(p) {
      if Dispatches(s, s') {
        assert s.ready[1..][k - 1] == p;
        NobodyStarves(s', ops[1..], p, k - 1);
      } else {
        NobodyStarves(s', ops[1..], p, k);
      }
    }
  }

  /** The processor is idle only when nobody is ready. */
  lemma NeverIdleWhileReady(s: State)
    requires Reachable(s) && s.ready != []
    ensures s.running.Some?
  {
    hide CoreInv;
    ReachableInv(s);
  }
}
