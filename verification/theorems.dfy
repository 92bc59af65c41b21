/** The results, for every state that a run from boot can reach. */
module Theorems {
  import opened Wrappers
  import opened KernelState
  import opened Syscalls
  import opened Invariants
  import opened ExitLoop
  import opened Scheduling
  import opened Waking
  import opened Buffers
  import opened Preservation
  import opened Steps
  import opened Descriptors
  import opened ExitValues
  import opened Outcomes
  import Fifo
  import QueueLife
  import WakeUps
  import Sleeping
  import Fairness
  import FamilyTree
  import Counting
  import Faults
  import Orphans
  import Stranding
  import TimerOrder
  import WakeOrder
  import Insertions
  import Dispatching
  import Numbering
  import Strangers
  import Idling
  import WaitOutcome
  import QueueCalls
  import ResourceCalls
  import ProcessCalls
  import ZombieOrder

  // ---------- blocking queues ----------

  /** The n-th accepted get receives the n-th accepted put: over any run that does not delete
      the queue, each request answered meanwhile is answered by a step that stores the value
      of its own turn where the request said, and ends the caller's call with 0. */
  lemma NthGetReceivesNthPut(s: State, ops: seq<Op>, id: int, n: nat)
    requires Reachable(s) && RunSafe(s, ops) && Fifo.Persists(s, ops, id)
    requires id in s.chans && id in Run(s, ops).chans
    requires s.chans[id].Served() <= n < Run(s, ops).chans[id].Served()
    ensures var c := Run(s, ops).chans[id];
      Fifo.AnswersDuring(s, ops, id, n, c.gets[n], c.puts[n])
  {
    hide Inv, Run, RunSafe, Fifo.AnswersDuring;
    ReachableInv(s);
    Fifo.NthGetReceivesNthPut(s, ops, id, n);
  }

  /** A step appends at most one call to the history of a queue, and writes to user memory
      what that queue delivers, if it delivers anything. */
  lemma HistoryIsAppended(s: State, op: Op, id: int)
    requires Reachable(s) && Safe(s, op) && id in s.queues && id in Step(s, op).queues
    ensures id in s.chans && id in Step(s, op).chans
    ensures Fifo.Extends(s, Step(s, op), s.chans[id], Step(s, op).chans[id])
  {
    hide Inv, Step, Safe, Fifo.Extends;
    ReachableInv(s);
    Fifo.StepExtends(s, op, id);
  }

  /** A get that finds a putter waiting completes its put: the value takes the place in the
      buffer, and the block, that the value just read has left, and the putter becomes ready.
      The allocation in between cannot fail. */
  lemma RefillLosesNothing(s: State, id: int, out: int)
    requires Reachable(s) && s.running.Some? && id in s.queues && s.queues[id].putters != []
    ensures s.queues[id].items != [] && Safe(s, Get(id, out))
    ensures var s', q := Step(s, Get(id, out)), s.queues[id];
      var p := q.putters[0].pcb;
      && Stores(s.mem, s'.mem, out, q.items[0].value) && s'.itemPool == s.itemPool
      && s'.queues == s.queues[id :=
           q.(items := q.items[1..] + [Item(q.items[0].block, s.pcb[p].arg1)], putters := q.putters[1..])]
      && p in s'.ready && s'.pcb[p].retval == 0 && s'.pcb[s.running.value].retval == 0
  {
    hide Inv, Step, Safe, Refilled;
    ReachableInv(s);
    RefillFacts(s, id, out);
    StepGet(s, Get(id, out));
    RefillReuses(Trap(s, Get(id, out)), id, out);
    GetRefills(Trap(s, Get(id, out)), id, out);
  }

  lemma RefillFacts(s: State, id: int, out: int)
    requires Inv(s) && s.running.Some? && id in s.queues && s.queues[id].putters != []
    ensures s.queues[id].items != [] && s.queues[id].getters == []
    ensures StorageInv(Trap(s, Get(id, out)))
    ensures s.queues[id].putters[0].pcb != s.running.value
  {
    HeadWaiterBlocked(s, id, false);
  }

  lemma StepGet(s: State, op: Op)
    requires s.running.Some? && op.Get? && GetSafe(Trap(s, op))
    ensures Safe(s, op)
    ensures var after := DoGet(Trap(s, op)); Step(s, op) == after.(chans := Observe(s, op, after))
  {
    hide DoGet, DoTick, GetSafe;
  }

  lemma GetRefills(s: State, id: int, out: int)
    requires s.running.Some? && id in s.queues && s.queues[id].items != [] && s.queues[id].putters != []
    requires s.pcb[s.running.value].arg0 == id && s.pcb[s.running.value].arg1 == out
    requires s.queues[id].putters[0].pcb != s.running.value
    ensures GetSafe(s) && DoGet(s) == Return(Refilled(s, id, out), 0)
    ensures var p := s.queues[id].putters[0].pcb;
      && p in DoGet(s).ready && DoGet(s).pcb[p].retval == 0 && DoGet(s).pcb[s.running.value].retval == 0
      && Stores(s.mem, DoGet(s).mem, out, s.queues[id].items[0].value)
  {
  }

  /** The branch of get for an empty buffer with a putter waiting is never taken. */
  lemma EmptyBufferHasNoPutters(s: State, id: int)
    requires Reachable(s) && id in s.queues
    ensures s.queues[id].items == [] ==> s.queues[id].putters == []
    ensures s.queues[id].getters != [] ==> s.queues[id].items == [] && s.queues[id].putters == []
    ensures s.queues[id].putters != [] ==> |s.queues[id].items| == s.queues[id].capacity
    ensures |s.queues[id].items| == s.queues[id].size <= s.queues[id].capacity
  {
    ReachableInv(s);
  }

  /** What put does. The put of a missing queue is refused. A value goes to the getter that has
      waited longest, if there is one; else to the end of the buffer, if that has room and a
      block is left, and without a block the put is refused; else the caller waits as the last
      of the putters. */
  lemma PutExactly(s: State, id: int, v: int)
    requires Reachable(s) && s.running.Some? && Safe(s, Put(id, v))
    ensures var s', p := Step(s, Put(id, v)), Called(s.pcb[s.running.value], CALL_PUT, id, v);
      if id !in s.queues then OnlyReturns(s, s', p, ERESOURCENOFD)
      else if s.queues[id].getters != [] then QueueCalls.HandsOver(s, s', id, v)
      else if |s.queues[id].items| >= s.queues[id].capacity then QueueCalls.WaitsToPutLast(s, s', id, v)
      else if |s.itemPool.live| < MAX_NUM_BQITEMS then QueueCalls.BuffersLast(s, s', id, v)
      else OnlyReturns(s, s', p, ESYSCALL_NOT_IMPLEMENTED)
  {
    hide Inv, Step, Safe, OnlyReturns, Called;
    hide QueueCalls.HandsOver, QueueCalls.WaitsToPutLast, QueueCalls.BuffersLast;
    ReachableInv(s);
    QueueCalls.PutExactly(s, id, v);
  }

  /** What get does. The get from a missing queue is refused. With an empty buffer the caller
      waits as the last of the getters; else it is given the first value, and the value of the
      putter that has waited longest, if there is one, goes to the end of the buffer. */
  lemma GetExactly(s: State, id: int, out: int)
    requires Reachable(s) && s.running.Some? && Safe(s, Get(id, out))
    ensures var s', p := Step(s, Get(id, out)), Called(s.pcb[s.running.value], CALL_GET, id, out);
      if id !in s.queues then OnlyReturns(s, s', p, ERESOURCENOFD)
      else if s.queues[id].items == [] then QueueCalls.WaitsToGetLast(s, s', id, out)
      else if s.queues[id].putters == [] then QueueCalls.TakesFirst(s, s', id, out)
      else QueueCalls.TakesAndRefills(s, s', id, out)
  {
    hide Inv, Step, Safe, OnlyReturns, Called;
    hide QueueCalls.WaitsToGetLast, QueueCalls.TakesFirst, QueueCalls.TakesAndRefills;
    ReachableInv(s);
    QueueCalls.GetExactly(s, id, out);
  }

  /** Create returns 0 exactly when the capacity is positive, the id is free and a block is left.
      It then makes the queue asked for; otherwise it only returns its error. */
  lemma CreateExactly(s: State, id: int, cap: int)
    requires Reachable(s) && s.running.Some?
    ensures Safe(s, Create(id, cap))
    ensures var s', p := Step(s, Create(id, cap)), Called(s.pcb[s.running.value], CALL_CREATE, id, cap);
      && (s'.pcb[s.running.value].retval == 0 <==>
            0 < cap && id !in s.queues && |s.bqPool.live| < MAX_NUM_BQUEUES)
      && if cap <= 0 then OnlyReturns(s, s', p, ESYSCALL_ARGUMENT_OUT_OF_BOUNDS)
         else if id in s.queues then OnlyReturns(s, s', p, EEXIST)
         else if |s.bqPool.live| >= MAX_NUM_BQUEUES then OnlyReturns(s, s', p, ESYSCALL_NOT_IMPLEMENTED)
         else QueueCalls.MakesQueue(s, s', id, cap)
  {
    hide Inv, Step, Safe, OnlyReturns, Called, QueueCalls.MakesQueue;
    ReachableInv(s);
    QueueCalls.CreateExactly(s, id, cap);
  }

  /** Delete succeeds exactly when the queue exists and nobody waits on it; it then gives back
      the queue and its items and no other block. Otherwise it only returns its error. */
  lemma DeleteExactly(s: State, id: int)
    requires Reachable(s) && s.running.Some?
    ensures Safe(s, Delete(id))
    ensures var s' := Step(s, Delete(id));
      var r := s.running.value;
      && (s'.pcb[r].retval == 0 <==> QueueLife.Deletable(s, id))
      && (QueueLife.Deletable(s, id) ==> QueueLife.GivesBack(s, s', id) && QueueLife.DeletesOnly(s, s', id))
      && (!QueueLife.Deletable(s, id) ==>
            OnlyReturns(s, s', Called1(s.pcb[r], CALL_DELETE, id),
                        if id in s.queues then ERESOURCEINUSE else ERESOURCENOFD))
  {
    hide Inv, Step, Safe, OnlyReturns, QueueLife.GivesBack, QueueLife.DeletesOnly;
    ReachableInv(s);
    QueueLife.DeleteExactly(s, id);
  }

  // ---------- allocation ----------

  /** Item blocks in use are the buffered items, queue blocks in use the registered queues. */
  lemma StorageIsConserved(s: State)
    requires Reachable(s)
    ensures |s.itemPool.live| == Counting.Total(s.queues, Counting.Buffered)
    ensures |s.bqPool.live| == |s.queues|
  {
    hide Inv;
    ReachableInv(s);
    Counting.StorageCount(s);
  }

  /** PCBPtr blocks in use are the processes but init plus the entries of all queues' lists of
      blocked processes, in which nobody is entered twice. */
  lemma LinksAreConserved(s: State)
    requires Reachable(s)
    ensures |s.ptrPool.live| == |s.pcbPool.live| - 1 + |Counting.QueueWaiters(s)|
    ensures |Counting.QueueWaiters(s)| == Counting.Total(s.queues, Counting.Blocked)
  {
    hide Inv;
    ReachableInv(s);
    Counting.LinkCount(s);
    Counting.WaitersAddUp(s);
  }

  /** List_insert never refuses a block that comes fresh from a pool: a free block is the block
      of no item in any list of its kind. */
  lemma FreshBlocksAreUnlisted(s: State)
    requires Reachable(s)
    ensures Insertions.FreeBlocksUnlisted(s)
  {
    hide Inv, Insertions.FreeBlocksUnlisted;
    ReachableInv(s);
    Insertions.InvUnlisted(s);
  }

  /** Nor the block that get takes out of a queue and fills again: no two items share a block. */
  lemma ItemBlocksDiffer(s: State, id: int, k: nat, id': int, k': nat)
    requires Reachable(s) && id in s.queues && id' in s.queues
    requires k < |s.queues[id].items| && k' < |s.queues[id'].items| && (id != id' || k != k')
    ensures s.queues[id].items[k].block != s.queues[id'].items[k'].block
  {
    hide ProcInv, PoolsInv, QueuesInv, ResourcesInv, FdsInv, ChansInv;
    ReachableInv(s);
    Insertions.ItemBlocksDiffer(s, id, k, id', k');
  }

  /** Nor a link that exit moves: at every turn of its loop the link at the head of the list is
      not yet among those of init. */
  lemma MovedLinkIsNew(s: State, v: int, n: nat)
    requires Reachable(s) && s.running.Some? && s.running.value != s.initPcb
    ensures var r, t := s.running.value, Turns(LoopStart(s, v), s.running.value, n);
      t.pcb[r].children != [] ==>
        forall l :: l in t.pcb[t.initPcb].children ==>
          l.pcb != t.pcb[r].children[0].pcb && l.block != t.pcb[r].children[0].block
  {
    hide Inv, CoreInv, Turns;
    ReachableInv(s);
    LoopStartKeeps(s, v);
    Insertions.MovedLinkIsNew(LoopStart(s, v), s.running.value, n);
  }

  lemma LoopStartKeeps(s: State, v: int)
    requires Inv(s) && s.running.Some?
    ensures CoreInv(LoopStart(s, v)) && Live(LoopStart(s, v), s.running.value)
    ensures LoopStart(s, v).initPcb == s.initPcb
  {
    hide CoreInv, ChansInv, WorkConserving;
    TrapKeeps(s, Exit(v));
    WakeUps.ReturnValueKeeps(Trap(s, Exit(v)));
  }

  /** While a process runs, it can always have a timer. */
  lemma TimersNeverRunOut(s: State)
    requires Reachable(s) && s.running.Some?
    ensures s.timerPool.free != []
  {
    hide Inv;
    ReachableInv(s);
    Counting.TimersNeverRunOut(s);
  }

  /** A call neither dereferences a null pointer nor loops for ever if and only if `Sound`
      holds of the state before it. */
  lemma SafeExactly(s: State, op: Op)
    requires Reachable(s) && s.running.Some? && !op.Tick?
    ensures Safe(s, op) <==> Faults.Sound(s, op)
  {
    hide Inv, Safe;
    ReachableInv(s);
    Faults.SafeExactly(s, op);
  }

  /** With at most half the PCB blocks in use, put, get, spawn and fork never fault. */
  lemma HalfLoadNeverFaults(s: State, op: Op)
    requires Reachable(s) && s.running.Some? && |s.pcbPool.live| <= MAX_NUM_PROCESSES / 2
    requires op.Put? || op.Get? || op.Fork? || op.Spawn?
    ensures Safe(s, op)
  {
    hide Inv, Safe;
    ReachableInv(s);
    Faults.HalfLoadNeverFaults(s, op);
  }

  // ---------- waiting ----------

  /** Every waiting process waits for one thing, which its last call names: it has the one
      timer set for it, or the one entry in the list of getters, or of putters, of the one
      queue it named, or it is blocked in wait; and nobody else has any of these. */
  lemma WaitingIsPartitioned(s: State, p: Ref)
    requires Reachable(s)
    ensures p in s.waiting ==> s.pcb[p].syscallNum in {CALL_SLEEP, CALL_GET, CALL_PUT, CALL_WAIT}
    ensures HasTimer(s.timers, p) <==> BlockedIn(s, p, CALL_SLEEP)
    ensures forall id :: id in s.queues ==>
      && (HasRef(s.queues[id].getters, p) <==> BlockedIn(s, p, CALL_GET) && s.pcb[p].arg0 == id)
      && (HasRef(s.queues[id].putters, p) <==> BlockedIn(s, p, CALL_PUT) && s.pcb[p].arg0 == id)
      && UniqueRefs(s.queues[id].getters) && UniqueRefs(s.queues[id].putters)
    ensures UniqueSleepers(s.timers)
  {
    hide TreeInv, PidsInv, PtrInv, DataInv, ChansInv, NoLostWakeUp;
    ReachableInv(s);
    forall id | id in s.queues
      ensures HasRef(s.queues[id].getters, p) ==> BlockedIn(s, p, CALL_GET) && s.pcb[p].arg0 == id
      ensures HasRef(s.queues[id].putters, p) ==> BlockedIn(s, p, CALL_PUT) && s.pcb[p].arg0 == id
      ensures UniqueRefs(s.queues[id].getters) && UniqueRefs(s.queues[id].putters)
    {
      WaitersAre(s, id, p);
    }
  }

  lemma WaitersAre(s: State, id: int, p: Ref)
    requires WaitersInv(s) && id in s.queues
    ensures HasRef(s.queues[id].getters, p) ==> BlockedIn(s, p, CALL_GET) && s.pcb[p].arg0 == id
    ensures HasRef(s.queues[id].putters, p) ==> BlockedIn(s, p, CALL_PUT) && s.pcb[p].arg0 == id
    ensures UniqueRefs(s.queues[id].getters) && UniqueRefs(s.queues[id].putters)
  {
    assert WaitersOk(s, s.queues[id].getters, id, CALL_GET) && WaitersOk(s, s.queues[id].putters, id, CALL_PUT);
  }

  /** A step ends the wait of `p` if and only if it is the event that `p` waits for. */
  lemma WakesExactly(s: State, op: Op, p: Ref)
    requires Reachable(s) && Safe(s, op) && p in s.waiting
    ensures p !in Step(s, op).waiting <==> WakeUps.Woken(s, op, p)
  {
    hide Inv, Step, Safe, WakeUps.Woken;
    ReachableInv(s);
    WakeUps.WakesExactly(s, op, p);
  }

  /** Each of these events wakes only processes blocked in the call that waits for it. */
  lemma OneReason(s: State, op: Op, p: Ref)
    requires Reachable(s) && p in s.waiting && WakeUps.Woken(s, op, p)
    ensures match op
      case Tick => s.pcb[p].syscallNum == CALL_SLEEP
      case Put(id, _) => s.pcb[p].syscallNum == CALL_GET && s.pcb[p].arg0 == id
      case Get(id, _) => s.pcb[p].syscallNum == CALL_PUT && s.pcb[p].arg0 == id
      case Exit(_) => s.pcb[p].syscallNum == CALL_WAIT
      case _ => false
  {
    hide Inv, WakeUps.Woken;
    ReachableInv(s);
    WakeUps.OneReason(s, op, p);
  }

  /** A tick wakes the timers that are due and no other, in the order of the timer list. */
  lemma TickWakesAllDue(s: State)
    requires Reachable(s)
    ensures WakeUps.WokenAll(s.(time := s.time + 1), WakeDue(s.(time := s.time + 1)))
  {
    hide CoreInv, WakeDue, WakeUps.WokenAll, ChansInv, WorkConserving;
    ReachableInv(s);
    LaterKeeps(s);
    WakeUps.HeadCheckWakesAllDue(s.(time := s.time + 1));
  }

  /** sleep never fails. In any run after it the caller sleeps on while the time is before
      max(t + n, t + 1), and the tick that makes it that time makes the caller runnable. */
  lemma SleepsExactly(s: State, n: int, ops: seq<Op>)
    requires Reachable(s) && s.running.Some? && Safe(s, Sleep(n)) && RunSafe(Step(s, Sleep(n)), ops)
    ensures var p := s.running.value;
      var s1 := Run(Step(s, Sleep(n)), ops);
      && (s1.time < Sleeping.WakeTick(s.time, n) ==> Sleeping.AsleepUntil(s1, p, s.time + n))
      && (s1.time == Sleeping.WakeTick(s.time, n) - 1 ==>
            p !in Step(s1, Tick).waiting && Sleeping.Runnable(Step(s1, Tick), p))
  {
    hide Inv, Step, Safe, Run, RunSafe, Sleeping.AsleepUntil, Sleeping.Runnable;
    ReachableInv(s);
    Sleeping.SleepsExactly(s, n, ops);
  }

  lemma SleepNeverFails(s: State, n: int)
    requires Reachable(s) && s.running.Some?
    ensures Safe(s, Sleep(n))
    ensures var s' := Step(s, Sleep(n));
      s'.time == s.time && Sleeping.AsleepUntil(s', s.running.value, s.time + n)
  {
    hide Inv, Step, Safe, Sleeping.AsleepUntil;
    ReachableInv(s);
    Sleeping.SleepBegins(s, n);
  }

  /** After a run from boot the timer list is the stable sort by wake-up time of the timers that
      were set and have not expired, taken in the order in which they were set. */
  lemma TimersAreStablySorted(ops: seq<Op>)
    requires RunSafe(Boot(), ops)
    ensures var ts, added := Run(Boot(), ops).timers, WakeOrder.Outstanding(Boot(), ops, []);
      && Sorted(ts) && TimerOrder.SameClasses(ts, added)
      && forall other :: Sorted(other) && TimerOrder.SameClasses(other, added) ==> other == ts
  {
    hide Inv, Run, RunSafe, TimerOrder.SameClasses, TimerOrder.AddAll, WakeOrder.Outstanding;
    BootInv();
    NoTimersAtBoot();
    WakeOrder.TimersAreOutstanding(Boot(), ops, []);
    var added := WakeOrder.Outstanding(Boot(), ops, []);
    forall other: seq<Timer>
      ensures Sorted(other) && TimerOrder.SameClasses(other, added) <==> other == TimerOrder.AddAll(added)
    {
      TimerOrder.TimersAreStablySorted(added, other);
    }
  }

  lemma NoTimersAtBoot()
    ensures Boot().timers == TimerOrder.AddAll([])
  {
  }

  /** A process that goes to sleep until no earlier than another sleeper wakes after it: in any
      run from there both sleep on, the earlier one ahead, up to the tick that wakes the
      earlier one, alone or with the later one behind it in the ready list. */
  lemma LaterSleeperWakesLater(s: State, n: int, p: Ref, w: int, ops: seq<Op>)
    requires Reachable(s) && s.running.Some? && Safe(s, Sleep(n)) && RunSafe(Step(s, Sleep(n)), ops)
    requires Sleeping.AsleepUntil(s, p, w) && w <= s.time + n
    ensures WakeOrder.WakesInOrder(Step(s, Sleep(n)), ops, p, s.running.value)
  {
    hide Inv, Step, Safe, RunSafe, Sleeping.AsleepUntil, WakeOrder.WakesInOrder;
    ReachableInv(s);
    StepKeeps(s, Sleep(n));
    WakeOrder.SleepBehind(s, n, p, w);
    WakeOrder.RunOrder(Step(s, Sleep(n)), ops, p, s.running.value);
  }

  /** A process with `k` others before it in the ready list gets the processor within k + 1
      ticks, whatever calls are made in between. */
  lemma NobodyStarves(s: State, ops: seq<Op>, p: Ref, k: nat)
    requires Reachable(s) && RunSafe(s, ops)
    requires k < |s.ready| && s.ready[k] == p && k < Fairness.Ticks(ops)
    ensures Fairness.RunsDuring(s, ops, p)
  {
    hide Inv, RunSafe, Fairness.RunsDuring, Fairness.Ticks;
    ReachableInv(s);
    Fairness.NobodyStarves(s, ops, p, k);
  }

  /** After a step the running process has status Ready if and only if the step was a sleep or a
      wait that blocked, with somebody ready to take over, or left the processor with a process
      that had status Ready before. */
  lemma RunsReadyExactly(s: State, op: Op)
    requires Reachable(s) && Safe(s, op)
    ensures var s' := Step(s, op);
      Dispatching.RunsReady(s') <==>
        (Dispatching.Unmarked(s, op) && s.ready != []) || (s'.running == s.running && Dispatching.RunsReady(s))
  {
    hide Inv, Step, Safe, Dispatching.RunsReady, Dispatching.Unmarked;
    ReachableInv(s);
    Dispatching.ReadyExactly(s, op);
  }

  /** After a run from boot the running process has status Ready if and only if it was
      dispatched, last, by a sleep or a wait that blocked. */
  lemma RunsReadyAfterRun(ops: seq<Op>)
    requires RunSafe(Boot(), ops) && Run(Boot(), ops).running.Some?
    ensures Dispatching.RunsReady(Run(Boot(), ops)) <==> Dispatching.LastDispatchUnmarked(Boot(), ops, false)
  {
    hide Inv, Run, RunSafe, Dispatching.RunsReady, Dispatching.LastDispatchUnmarked;
    BootInv();
    Dispatching.BootIsMarked();
    Dispatching.RunReadyExactly(Boot(), ops, false);
  }

  /** From a state with nobody running somebody runs again if and only if a timer is set. It
      takes no call and no choice: the ticks up to the first one that finds a timer expired
      change the time alone, and that one dispatches. */
  lemma IdleRecoversExactly(s: State, n: nat)
    requires Reachable(s) && s.running == None
    ensures Idling.Recovers(s) <==> s.timers != []
    ensures s.timers != [] && s.time + n <= Idling.FirstWake(s) ==>
      && RunSafe(s, Idling.Ticking(n))
      && if s.time + n < Idling.FirstWake(s) then Run(s, Idling.Ticking(n)) == s.(time := s.time + n)
         else Run(s, Idling.Ticking(n)).running.Some?
  {
    hide Inv, Run, RunSafe, Idling.Recovers, Idling.Ticking;
    ReachableInv(s);
    Idling.RecoversExactly(s);
    if s.timers != [] && s.time + n <= Idling.FirstWake(s) { Idling.IdleUntil(s, n); }
  }

  // ---------- what the scheduling calls do ----------

  /** Preempt with nobody ready only comes back; otherwise the head of the ready list runs and the
      caller goes behind all others. */
  lemma PreemptExactly(s: State)
    requires Reachable(s) && s.running.Some?
    ensures Safe(s, Preempt)
    ensures var s', p := Step(s, Preempt), s.pcb[s.running.value].(syscallNum := CALL_PREEMPT);
      if s.ready == [] then s' == s.(pcb := s.pcb[s.running.value := p]) else ProcessCalls.TakesTurns(s, s', p)
  {
    hide Inv, Step, Safe, ProcessCalls.TakesTurns;
    ReachableInv(s);
    ProcessCalls.PreemptExactly(s);
  }

  /** The tick: which sleepers are woken, who runs, and where who ran before goes. */
  lemma TickExactly(s: State)
    requires Reachable(s)
    ensures Safe(s, Tick) && ProcessCalls.Ticked(s, Step(s, Tick))
  {
    hide Inv, Step, Safe, ProcessCalls.Ticked;
    ReachableInv(s);
    ProcessCalls.TickExactly(s);
  }

  /** Sleep puts the caller to sleep, its timer behind those for the same tick. */
  lemma SleepExactly(s: State, n: int)
    requires Reachable(s) && s.running.Some?
    ensures Safe(s, Sleep(n)) && exists b :: ProcessCalls.FallsAsleep(s, Step(s, Sleep(n)), n, b)
  {
    hide Inv, Step, Safe, ProcessCalls.FallsAsleep;
    ReachableInv(s);
    ProcessCalls.SleepExactly(s, n);
  }

  // ---------- families ----------

  /** The `k`-th ancestor of `r`, or the last one there is. */
  function Ancestor(s: State, r: Ref, k: nat): Ref
    decreases k
  {
    if k == 0 || s.pcb[r].parent == None then r else Ancestor(s, s.pcb[r].parent.value, k - 1)
  }

  /** All ancestors of a live process are live and older, and the last one is init. */
  lemma {:induction false} AllDescendFromInit(s: State, r: Ref, k: nat)
    requires Reachable(s) && Live(s, r)
    ensures Live(s, Ancestor(s, r, k)) && s.pcb[Ancestor(s, r, k)].pid <= s.pcb[r].pid
    ensures s.pcb[r].pid <= k ==> Ancestor(s, r, k) == s.initPcb
    ensures Ancestor(s, r, k) == r ==> k == 0 || r == s.initPcb
    decreases k
  {
    hide Reachable;
    ParentIsOlder(s, r);
    if k > 0 && r != s.initPcb { AllDescendFromInit(s, s.pcb[r].parent.value, k - 1); }
  }

  lemma ParentIsOlder(s: State, r: Ref)
    requires Reachable(s) && Live(s, r)
    ensures 0 <= s.pcb[r].pid && (s.pcb[r].pid == 0 <==> r == s.initPcb)
    ensures s.pcb[s.initPcb].parent == None
    ensures r != s.initPcb ==>
      var p := s.pcb[r].parent; p.Some? && Live(s, p.value) && s.pcb[p.value].pid < s.pcb[r].pid
  {
    hide ListsInv, WaitsInv, TimersInv, WaitersInv, PtrInv, DataInv, ChansInv, NoLostWakeUp, ChildrenInv;
    ReachableInv(s);
    assert r != s.initPcb ==> HasParent(s, r);
  }

  /** The loop of exit ends exactly when the caller is not init or has no children. For init it
      only moves the head of the list to its end: after as many turns as init has children it
      is back in the state it started from. */
  lemma ExitLoopEndsExactly(s: State, v: int, n: nat)
    requires Reachable(s) && s.running.Some?
    ensures var r, t := s.running.value, LoopStart(s, v);
      && (LoopEnds(t, r) <==> r != s.initPcb || s.pcb[r].children == [])
      && (Safe(s, Exit(v)) <==> LoopEnds(t, r))
      && (r != s.initPcb ==> Turns(t, r, |s.pcb[r].children|) == Adopt(Trap(s, Exit(v))))
      && (r == s.initPcb ==>
            && Turns(t, r, n) == SetPcb(t, r, t.pcb[r].(children := Rotated(s.pcb[r].children, n)))
            && Turns(t, r, |s.pcb[r].children|) == t)
  {
    hide Reachable, Turns, ReparentAll, LoopEnds, Rotated;
    var r, t := s.running.value, LoopStart(s, v);
    LoopEndsExactly(t, r);
    ExitSafeExactly(Trap(s, Exit(v)));
    if r == s.initPcb {
      InitChildren(s);
      InitTurns(t, n);
      InitComesBack(t);
    } else {
      OthersFinish(t, r);
    }
  }

  lemma InitChildren(s: State)
    requires Reachable(s)
    ensures forall l :: l in s.pcb[s.initPcb].children ==>
      s.pcb[l.pcb].parent == Some(s.initPcb) && l.pcb != s.initPcb
  {
    hide ListsInv, WaitsInv, TimersInv, WaitersInv, PtrInv, DataInv, ChansInv, NoLostWakeUp;
    ReachableInv(s);
    forall l | l in s.pcb[s.initPcb].children
      ensures s.pcb[l.pcb].parent == Some(s.initPcb) && l.pcb != s.initPcb
    {
      assert ChildLinkOk(s, s.initPcb, l);
    }
  }

  /** Fork and spawn make a process that is ready behind all others, the last child of the
      caller, and change nothing else. */
  lemma SpawnExactly(s: State, op: Op)
    requires Reachable(s) && Safe(s, op) && (op.Fork? || op.Spawn?)
    ensures s.running.Some?
    ensures var p := s.pcb[s.running.value];
      var call := if op.Fork? then p.(syscallNum := CALL_FORK) else Called(p, CALL_SPAWN, op.entry, op.arg);
      exists c: Ref, b: nat :: ProcessCalls.Spawns(s, Step(s, op), call, c, b)
  {
    hide Inv, Step, Safe, ProcessCalls.Spawns, Called;
    ReachableInv(s);
    ProcessCalls.SpawnExactly(s, op);
  }

  /** Exit: what is left of the caller, where its children go, who is woken, and who runs. */
  lemma ExitExactly(s: State, v: int)
    requires Reachable(s) && Safe(s, Exit(v))
    ensures s.running.Some? && ProcessCalls.Exits(s, Step(s, Exit(v)), v, ProcessCalls.WokenBy(s, s.running.value))
  {
    hide Inv, Step, Safe, ProcessCalls.Exits;
    ReachableInv(s);
    ProcessCalls.ExitExactly(s, v);
  }

  /** Exit hands its children to init, in order, behind those init had, and no others. */
  lemma InitAdopts(s: State, v: int)
    requires Reachable(s) && s.running.Some? && s.running.value != s.initPcb
    ensures ExitSafe(Trap(s, Exit(v)))
    ensures FamilyTree.Adopted(s, Adopt(Trap(s, Exit(v))), s.running.value)
  {
    hide CoreInv, ChansInv, WorkConserving, Adopt, Reachable;
    ReachableInv(s);
    TrapKeeps(s, Exit(v));
    FamilyTree.AdoptIsAdopted(Trap(s, Exit(v)));
  }

  /** A step strands init if and only if it is an exit while init waits, by a process that leaves
      it a zombie it asked for and is not itself the child that init is woken for. */
  lemma StrandsExactly(s: State, op: Op)
    requires Reachable(s) && Safe(s, op) && !FamilyTree.Stranded(s)
    ensures FamilyTree.Stranded(Step(s, op)) <==> Stranding.StrandingExit(s, op)
  {
    hide Inv, Step, Safe, FamilyTree.Stranded, Stranding.StrandingExit;
    ReachableInv(s);
    Stranding.StrandsExactly(s, op);
  }

  /** In a run from boot init is stranded at some point if and only if the run has such a step. */
  lemma StrandedRunExactly(ops: seq<Op>)
    requires RunSafe(Boot(), ops)
    ensures Stranding.StrandedDuring(Boot(), ops) <==> Stranding.StrandingExitDuring(Boot(), ops)
    ensures FamilyTree.Stranded(Run(Boot(), ops)) ==> Stranding.StrandingExitDuring(Boot(), ops)
  {
    hide Inv, Run, RunSafe, Stranding.StrandedDuring, Stranding.StrandingExitDuring;
    BootInv();
    Stranding.StrandedRunExactly(Boot(), ops);
  }

  /** A process other than init that has children, and waits for a pid that none of them has,
      gets no error: it stays blocked in every continuation. */
  lemma WaitForStrangerHangs(s: State, pid: int, out: int, ops: seq<Op>)
    requires Reachable(s) && s.running.Some? && s.running.value != s.initPcb && Safe(s, Wait(pid, out))
    requires s.pcb[s.running.value].children != [] && pid != 0
    requires Strangers.NoChildWith(s, s.running.value, pid)
    requires RunSafe(Step(s, Wait(pid, out)), ops)
    ensures BlockedIn(Run(Step(s, Wait(pid, out)), ops), s.running.value, CALL_WAIT)
  {
    hide Inv, Step, Safe, Run, RunSafe, Strangers.NoChildWith;
    ReachableInv(s);
    var s1 := Step(s, Wait(pid, out));
    StepKeeps(s, Wait(pid, out));
    Strangers.StepWaitStranger(s, pid, out);
    Strangers.StrangerRun(s1, ops, s.running.value);
  }

  /** A wait stores a value, returns a pid and reaps if and only if the caller has a zombie child
      it asked for when it calls, and it is the first such zombie that it reaps. Otherwise the
      caller without children gets its error, and any other waits, with no result. */
  lemma WaitDeliversExactly(s: State, pid: int, out: int)
    requires Reachable(s) && s.running.Some? && Safe(s, Wait(pid, out))
    ensures var r, s' := s.running.value, Step(s, Wait(pid, out));
      if exists z: Ref :: z in s.zombie && s.pcb[z].parent == Some(r) && pid in {0, s.pcb[z].pid} then
        exists i: nat :: FirstAwaited(s, s.zombie, i, r, pid) && WaitOutcome.ReapsAt(s, s', i, pid, out)
      else if s.pcb[r].children == [] then OnlyReturns(s, s', Called(s.pcb[r], CALL_WAIT, pid, out), EWAIT)
      else WaitOutcome.WaitsForChild(s, s', pid, out)
  {
    hide Inv, Step, Safe, FirstAwaited, WaitOutcome.ReapsAt, WaitOutcome.WaitsForChild, OnlyReturns;
    ReachableInv(s);
    WaitOutcome.DeliversExactly(s, pid, out);
  }

  /** Of two zombies the one that exited first is reaped first by whoever asks for both: in any
      run after the exit of the second one, no wait that asks for the first reaps the second
      while both are zombies. */
  lemma FirstToExitIsFirstReaped(s: State, v: int, a: Ref, ops: seq<Op>)
    requires Reachable(s) && s.running.Some? && Safe(s, Exit(v)) && a in s.zombie && RunSafe(Step(s, Exit(v)), ops)
    ensures ZombieOrder.NotOvertaken(Step(s, Exit(v)), ops, a, s.running.value)
  {
    hide Inv, Step, Safe, RunSafe, ZombieOrder.NotOvertaken;
    ReachableInv(s);
    ZombieOrder.FirstToExitIsFirstReaped(s, v, a, ops);
  }

  /** A parent that an exit wakes from its wait is given neither a result nor a value, and the
      process that exited is still there to be reaped. */
  lemma BlockedWaitGetsNothing(s: State, v: int, p: Ref)
    requires Reachable(s) && Safe(s, Exit(v)) && p in s.waiting && p !in Step(s, Exit(v)).waiting
    ensures var s' := Step(s, Exit(v));
      && s.pcb[p].syscallNum == CALL_WAIT && s.pcb[s.running.value].parent == Some(p)
      && s'.pcb[p].retval == s.pcb[p].retval && s'.mem == s.mem
      && s.running.value in s'.zombie && Live(s', s.running.value)
  {
    hide Inv, Step, ParentAwaits, ExitSafe;
    ReachableInv(s);
    StepExitReturnsNothing(s, v);
    WakeUps.WakesExactly(s, Exit(v), p);
    OneReason(s, Exit(v), p);
    StepKeeps(s, Exit(v));
    ZombieIsNotRunning(Step(s, Exit(v)), s.running.value);
  }

  /** The value given to exit is what the wait that reaps the process stores, and its pid what
      that wait returns, after any run in which the zombie is kept. */
  lemma ExitValueReachesWait(s: State, v: int, ops: seq<Op>, pid: int, out: int)
    requires Reachable(s) && s.running.Some? && Safe(s, Exit(v)) && RunSafe(Step(s, Exit(v)), ops)
    requires StaysZombie(Step(s, Exit(v)), ops, s.running.value)
    requires var s2 := Run(Step(s, Exit(v)), ops);
      && s2.running.Some? && s2.pcb[s2.running.value].children != []
      && FindZombie(s2, s2.zombie, s2.running.value, pid) == Some(s.running.value)
    ensures var z, s2 := s.running.value, Run(Step(s, Exit(v)), ops);
      && Safe(s2, Wait(pid, out))
      && Delivered(s2, Step(s2, Wait(pid, out)), z, out, s.pcb[z].pid, v)
  {
    hide Inv, Step, Safe, Run, RunSafe, StaysZombie, Delivered, FindZombie;
    ReachableInv(s);
    ExitValues.ExitValueReachesWait(s, v, ops, pid, out);
  }

  // ---------- resources ----------

  /** When an open without DSOS_CREATE succeeds, and that it then adds one descriptor and does
      nothing else; otherwise it only returns its error. */
  lemma OpensExactly(s: State, id: int, rtype: int, mode: int)
    requires Reachable(s) && s.running.Some? && !CreateBit(mode)
    ensures Safe(s, Open(id, rtype, mode))
    ensures var s' := Step(s, Open(id, rtype, mode));
      var r := s.running.value;
      && (Opens(s, id, rtype, mode) <==> |s'.desPool.live| == |s.desPool.live| + 1)
      && (Opens(s, id, rtype, mode) ==>
            && s'.pcb[r].retval == s.pcb[r].lastFd
            && exists rb: nat :: ResourceCalls.OpensAt(s, s', rb, id, rtype, mode))
      && (!Opens(s, id, rtype, mode) ==>
            OnlyReturns(s, s', ResourceCalls.OpenCall(s.pcb[r], id, rtype, mode), OpenError(s, id, rtype, mode)))
  {
    hide Inv, Step, Safe, Opens, OpenError, ResourceCalls.OpensAt;
    ReachableInv(s);
    Descriptors.OpensExactly(s, id, rtype, mode);
    if Opens(s, id, rtype, mode) { var rb := ResourceCalls.OpenAdds(s, id, rtype, mode); }
  }

  /** An open with DSOS_CREATE is refused exactly when the id is taken; otherwise it registers
      the resource, even when it then fails for lack of a descriptor, and does nothing else. */
  lemma CreatesExactly(s: State, id: int, rtype: int, mode: int)
    requires Reachable(s) && s.running.Some? && CreateBit(mode) && Safe(s, Open(id, rtype, mode))
    ensures var s' := Step(s, Open(id, rtype, mode));
      if Faults.HasResource(s, id) then
        OnlyReturns(s, s', ResourceCalls.OpenCall(s.pcb[s.running.value], id, rtype, mode), ERESOURCECREATE)
      else
        exists rb: nat :: ResourceCalls.CreatesAt(s, s', rb, id, rtype, mode)
  {
    hide Inv, Step, Safe, Faults.HasResource, ResourceCalls.CreatesAt;
    ReachableInv(s);
    if Faults.HasResource(s, id) {
      ResourceCalls.CreateRefused(s, id, rtype, mode);
    } else {
      ResourceCalls.CreateAdds(s, id, rtype, mode);
    }
  }

  /** Close returns 0 exactly when the caller has a descriptor with this number, and then that
      descriptor and its entry are gone; otherwise the call only returns its error. */
  lemma CloseExactly(s: State, fd: int)
    requires Reachable(s) && s.running.Some?
    ensures Safe(s, Close(fd))
    ensures var s', p := Step(s, Close(fd)), s.pcb[s.running.value];
      && (s'.pcb[s.running.value].retval == 0 <==> ResourceCalls.HasFd(p, fd))
      && if ResourceCalls.HasFd(p, fd) then exists i: nat :: ResourceCalls.ClosesAt(s, s', i, fd)
         else OnlyReturns(s, s', Called1(p, CALL_CLOSE, fd), ERESOURCECLOSE)
  {
    hide Inv, Step, Safe, OnlyReturns, ResourceCalls.HasFd, ResourceCalls.ClosesAt;
    ReachableInv(s);
    ResourceCalls.CloseExactly(s, fd);
  }

  /** Destroy returns 0 exactly when the resource is registered and no descriptor in use refers
      to it, and then it is gone; otherwise the call only returns its error. */
  lemma DestroyExactly(s: State, id: int)
    requires Reachable(s) && s.running.Some?
    ensures Safe(s, Destroy(id))
    ensures var s', p := Step(s, Destroy(id)), Called1(s.pcb[s.running.value], CALL_DESTROY, id);
      && (s'.pcb[s.running.value].retval == 0 <==> Faults.HasResource(s, id) && !ResourceCalls.InUse(s, id))
      && if !Faults.HasResource(s, id) then OnlyReturns(s, s', p, ERESOURCECLOSE)
         else if ResourceCalls.InUse(s, id) then OnlyReturns(s, s', p, ERESOURCEINUSE)
         else ResourceCalls.Unregisters(s, s', id)
  {
    hide Inv, Step, Safe, OnlyReturns, Faults.HasResource, ResourceCalls.InUse, ResourceCalls.Unregisters;
    ReachableInv(s);
    ResourceCalls.DestroyExactly(s, id);
  }

  /** Opening a resource and closing the number returned changes nothing but the caller's
      saved call and its next number. */
  lemma CloseUndoesOpen(s: State, id: int, rtype: int, mode: int)
    requires Reachable(s) && s.running.Some? && !CreateBit(mode) && Opens(s, id, rtype, mode)
    ensures var r := s.running.value;
      var open := Open(id, rtype, mode);
      && Safe(s, open)
      && var s1 := Step(s, open);
      && s1.running == Some(r)
      && var close := Close(s1.pcb[r].retval);
      && Safe(s1, close)
      && Step(s1, close) == SetPcb(s, r,
           AfterCall(AfterCall(s.pcb[r], open, 0), close, 0).(lastFd := s.pcb[r].lastFd + 1))
  {
    hide Inv, Step, Safe, Opens;
    ReachableInv(s);
    Descriptors.CloseUndoesOpen(s, id, rtype, mode);
  }

  /** A step leaves a descriptor without any process that could close it if and only if the
      step is a wait and reaps the process that has the descriptor open. */
  lemma OrphansExactly(s: State, op: Op, b: nat)
    requires Reachable(s) && Safe(s, op) && !Orphans.Orphan(s, b)
    ensures Orphans.Orphan(Step(s, op), b) <==> Orphans.ReapsHolder(s, op, b)
  {
    hide Inv, Step, Safe, Orphans.Orphan, Orphans.ReapsHolder;
    ReachableInv(s);
    Orphans.OrphansExactly(s, op, b);
  }

  /** A run from boot ends with such a descriptor if and only if it reaped a process that had
      one open. */
  lemma OrphanRunExactly(ops: seq<Op>)
    requires RunSafe(Boot(), ops)
    ensures Orphans.HasOrphan(Run(Boot(), ops)) <==> Orphans.ReapsOpenDuring(Boot(), ops)
  {
    hide Inv, Run, RunSafe, Orphans.HasOrphan, Orphans.ReapsOpenDuring;
    BootInv();
    Orphans.NoOrphanAtBoot();
    Orphans.OrphanRunExactly(Boot(), ops);
  }

  /** Such a descriptor stays in use for ever, and every later destroy of its resource, which
      stays registered under its id, is refused. */
  lemma OrphansLastForever(s: State, ops: seq<Op>, b: nat)
    requires Reachable(s) && RunSafe(s, ops) && Orphans.Orphan(s, b)
    ensures s.desPool.live[b].res in s.resPool.live
    ensures Orphans.StaysOrphan(s, Run(s, ops), b)
    ensures var s' := Run(s, ops);
      var destroy := Destroy(s.resPool.live[s.desPool.live[b].res].id);
      s'.running.Some? ==>
        Safe(s', destroy) && Step(s', destroy).pcb[s'.running.value].retval == ERESOURCEINUSE
  {
    hide Inv, Step, Safe, Run, RunSafe, Orphans.Orphan;
    ReachableInv(s);
    OrphanIsLive(s, b);
    Orphans.OrphansStay(s, ops, b);
    Orphans.NeverDestroyed(s, ops, b);
  }

  lemma OrphanIsLive(s: State, b: nat)
    requires Orphans.Orphan(s, b)
    ensures b in s.desPool.live
  {
  }
}
