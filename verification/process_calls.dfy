/** What preempt, fork, spawn, sleep, exit and the tick do, in every case, and exactly when each
    case arises. */
module ProcessCalls {
  import opened Wrappers
  import opened Seqs
  import opened KernelState
  import opened Syscalls
  import opened Invariants
  import opened Waking
  import opened Bystanders
  import opened Preservation
  import opened Steps
  import opened WakeUps
  import opened Counting
  import opened ExitLoop
  import opened Dispatching
  import opened Outcomes

  lemma StepCall(s: State, op: Op)
    requires Safe(s, op) && !op.Tick? && !QueueCall(op)
    ensures s.running.Some? && HandlerSafe(Trap(s, op), op)
    ensures Step(s, op) == Handler(Trap(s, op), op).(chans := s.chans)
  {
    hide Handler, HandlerSafe, Trap;
    StepOfCall(s, op);
  }

  // ---------- preempt ----------

  /** The head of the ready list runs, and the caller, otherwise `p`, is ready behind all. */
  ghost predicate TakesTurns(s: State, s': State, p: Pcb)
    requires s.running.Some? && s.ready != []
  {
    var r, next := s.running.value, s.ready[0];
    && next != r && s'.running == Some(next) && s'.ready == s.ready[1..] + [r]
    && s'.pcb == s.pcb[r := p.(status := Ready)][next := s.pcb[next].(status := Running)]
    && s' == s.(running := s'.running, ready := s'.ready, pcb := s'.pcb)
  }

  lemma PreemptExactly(s: State)
    requires Inv(s) && s.running.Some?
    ensures Safe(s, Preempt)
    ensures var s', p := Step(s, Preempt), s.pcb[s.running.value].(syscallNum := CALL_PREEMPT);
      if s.ready == [] then s' == s.(pcb := s.pcb[s.running.value := p]) else TakesTurns(s, s', p)
  {
    hide Inv, Step;
    RunningIsElsewhere(s);
    assert Safe(s, Preempt);
    StepCall(s, Preempt);
  }

  lemma RunningIsElsewhere(s: State)
    requires Inv(s) && s.running.Some?
    ensures s.running.value !in s.ready && s.running.value !in s.waiting && s.running.value !in s.zombie
    ensures s.pcb[s.running.value].timer == None && Live(s, s.running.value)
    ensures s.pcbPool.Wf(MAX_NUM_PROCESSES) && s.ptrPool.Wf(MAX_NUM_PROCESSES) && s.timerPool.Wf(MAX_NUM_PROCESSES)
  {
    hide PidsInv, WaitsInv, TimersInv, WaitersInv, NoLostWakeUp, PtrInv, QueuesInv, StorageInv, ResourcesInv;
    hide FdsInv, ChansInv, ParentsInv, ChildrenInv;
  }

  // ---------- fork and spawn ----------

  /** There is a new process, ready behind all, the youngest, with nothing but a parent; the rest
      of its block is stale. The caller, otherwise `p`, has it as its last child, and is given
      its pid. */
  ghost predicate Spawns(s: State, s': State, p: Pcb, c: Ref, b: nat)
    requires s.running.Some?
  {
    var r := s.running.value;
    && c != r && HandsOut(s.pcbPool, s'.pcbPool, c, ()) && HandsOut(s.ptrPool, s'.ptrPool, b, ChildOf(c))
    && s'.lastPid == s.lastPid + 1 && s'.ready == s.ready + [c]
    && s'.pcb == s.pcb[r := p.(children := p.children + [Link(b, c)], retval := s.lastPid)]
                 [c := s.pcb[c].(pid := s.lastPid, returnValue := 0, status := Ready, parent := Some(r),
                                 children := [], descriptors := [], timer := None)]
    && s' == s.(pcbPool := s'.pcbPool, ptrPool := s'.ptrPool, lastPid := s'.lastPid, ready := s'.ready,
                pcb := s'.pcb)
  }

  lemma SpawnCase(s: State, c: Ref, b: nat)
    requires s.running.Some? && SpawnSafe(s) && s.pcbPool.free[0] == c && s.ptrPool.free[0] == b
    requires s.pcbPool.Wf(MAX_NUM_PROCESSES) && s.ptrPool.Wf(MAX_NUM_PROCESSES) && c != s.running.value
    ensures Spawns(s, DoSpawn(s), s.pcb[s.running.value], c, b)
  {
    TakeHandsOut(s.pcbPool, (), MAX_NUM_PROCESSES);
    TakeHandsOut(s.ptrPool, ChildOf(c), MAX_NUM_PROCESSES);
    hide HandsOut;
  }

  lemma TrapSpawns(s: State, op: Op, s': State, c: Ref, b: nat)
    requires s.running.Some? && !op.Tick?
    requires Spawns(Trap(s, op), s', Trap(s, op).pcb[s.running.value], c, b)
    ensures Spawns(s, s'.(chans := s.chans), Trap(s, op).pcb[s.running.value], c, b)
  {
    hide HandsOut;
  }

  lemma FreeIsNotRunning(s: State)
    requires s.running.Some? && Live(s, s.running.value) && s.pcbPool.Wf(MAX_NUM_PROCESSES) && s.pcbPool.free != []
    ensures s.pcbPool.free[0] != s.running.value
  {
    assert s.pcbPool.free[0] in s.pcbPool.free;
  }

  lemma SpawnExactly(s: State, op: Op)
    requires Inv(s) && Safe(s, op) && (op.Fork? || op.Spawn?)
    ensures s.running.Some? && s.pcbPool.free != [] && s.ptrPool.free != []
    ensures var p := s.pcb[s.running.value];
      Spawns(s, Step(s, op), if op.Fork? then p.(syscallNum := CALL_FORK) else Called(p, CALL_SPAWN, op.entry, op.arg),
             s.pcbPool.free[0], s.ptrPool.free[0])
  {
    hide Inv, Step, Safe, DoSpawn, Spawns;
    StepCall(s, op);
    RunningIsElsewhere(s);
    var t := Trap(s, op);
    assert SpawnSafe(t);
    FreeIsNotRunning(s);
    SpawnCase(t, s.pcbPool.free[0], s.ptrPool.free[0]);
    TrapSpawns(s, op, DoSpawn(t), s.pcbPool.free[0], s.ptrPool.free[0]);
  }

  // ---------- sleep ----------

  /** A timer for tick `wake` of process `r` is in the list, behind all those for that tick and
      earlier ones, and before all later ones. */
  ghost predicate SetsTimer(ts: seq<Timer>, ts': seq<Timer>, t: Timer) {
    exists i :: 0 <= i <= |ts| && ts' == ts[..i] + [t] + ts[i..]
             && (forall k :: 0 <= k < i ==> ts[k].wake <= t.wake)
             && (forall k :: i <= k < |ts| ==> t.wake < ts[k].wake)
  }

  /** The caller waits, with a timer for `n` ticks later, and who is ready takes over as it is. */
  ghost predicate FallsAsleep(s: State, s': State, n: int, b: nat)
    requires s.running.Some?
  {
    && HandsOut(s.timerPool, s'.timerPool, b, s.running.value)
    && SetsTimer(s.timers, s'.timers, Timer(b, s.time + n, s.running.value))
    && Blocks(s, s', Called1(s.pcb[s.running.value], CALL_SLEEP, n), false)
    && s' == s.(timers := s'.timers, timerPool := s'.timerPool, pcb := s'.pcb, running := s'.running,
                ready := s'.ready, waiting := s'.waiting)
  }

  lemma InsertSets(ts: seq<Timer>, t: Timer)
    requires Sorted(ts)
    ensures SetsTimer(ts, TimerInsert(ts, t), t)
  {
    var i := TimerPos(ts, t.wake);
    assert forall k :: i <= k < |ts| ==> ts[i].wake <= ts[k].wake;
  }

  lemma TimersSorted(s: State)
    requires Inv(s)
    ensures Sorted(s.timers)
  {
  }

  lemma SleepCase(s: State, n: int, b: nat)
    requires s.running.Some? && Sorted(s.timers) && s.timerPool.Wf(MAX_NUM_PROCESSES)
    requires s.timerPool.free != [] && s.timerPool.free[0] == b && s.pcb[s.running.value].timer == None
    requires s.pcb[s.running.value] == Called1(s.pcb[s.running.value], CALL_SLEEP, n)
    ensures FallsAsleep(s, DoSleep(s), n, b)
  {
    InsertSets(s.timers, Timer(b, s.time + n, s.running.value));
    TakeHandsOut(s.timerPool, s.running.value, MAX_NUM_PROCESSES);
    hide HandsOut, SetsTimer, TimerInsert, Sorted;
  }

  lemma TrapSleep(s: State, s': State, n: int, b: nat)
    requires s.running.Some? && FallsAsleep(Trap(s, Sleep(n)), s', n, b)
    ensures FallsAsleep(s, s'.(chans := s.chans), n, b)
  {
    hide HandsOut, SetsTimer;
  }

  lemma SleepExactly(s: State, n: int)
    requires Inv(s) && s.running.Some?
    ensures Safe(s, Sleep(n)) && s.timerPool.free != []
    ensures FallsAsleep(s, Step(s, Sleep(n)), n, s.timerPool.free[0])
  {
    hide Inv, Step, Sorted, DoSleep, FallsAsleep;
    assert Safe(s, Sleep(n));
    StepCall(s, Sleep(n));
    RunningIsElsewhere(s);
    TimersNeverRunOut(s);
    TimersSorted(s);
    var t := Trap(s, Sleep(n));
    SleepCase(t, n, s.timerPool.free[0]);
    TrapSleep(s, DoSleep(t), n, s.timerPool.free[0]);
  }

  // ---------- exit ----------

  ghost predicate HasChild(s: State, r: Ref, c: Ref) {
    HasRef(s.pcb[r].children, c)
  }

  /** Process `x` after the children of `r` became children of init. */
  ghost function Rehomed(s: State, r: Ref, x: Ref): Pcb {
    s.pcb[x].(parent := if HasChild(s, r, x) then Some(s.initPcb) else s.pcb[x].parent,
              children := if x == r then []
                          else if x == s.initPcb then s.pcb[x].children + s.pcb[r].children
                          else s.pcb[x].children)
  }

  ghost predicate RehomesAll(s: State, s': State, r: Ref) {
    s' == s.(pcb := s'.pcb) && forall x: Ref :: s'.pcb[x] == Rehomed(s, r, x)
  }

  lemma HeadOrLater(ls: seq<Link>, x: Ref)
    requires ls != []
    ensures HasRef(ls, x) <==> x == ls[0].pcb || HasRef(ls[1..], x)
  {
    if HasRef(ls[1..], x) {
      var i :| 0 <= i < |ls[1..]| && ls[1..][i].pcb == x;
      assert ls[i + 1].pcb == x;
    }
    if HasRef(ls, x) {
      var i :| 0 <= i < |ls| && ls[i].pcb == x;
      assert i > 0 ==> ls[1..][i - 1].pcb == x;
    }
  }

  /** One turn of the loop. */
  lemma TurnRehomes(s: State, r: Ref, x: Ref)
    requires r != s.initPcb && s.pcb[r].children != []
    ensures var u, ls := ReparentOne(s, r), s.pcb[r].children;
      && u == s.(pcb := u.pcb)
      && u.pcb[x] == s.pcb[x].(parent := if x == ls[0].pcb then Some(s.initPcb) else s.pcb[x].parent,
                               children := if x == r then ls[1..]
                                           else if x == s.initPcb then s.pcb[x].children + [ls[0]]
                                           else s.pcb[x].children)
  {
  }

  lemma RehomeOne(s: State, r: Ref, u: State, v: State)
    requires r != s.initPcb && s.pcb[r].children != [] && u == ReparentOne(s, r) && RehomesAll(u, v, r)
    ensures RehomesAll(s, v, r)
  {
    hide ReparentOne, HasRef;
    var ls := s.pcb[r].children;
    TurnRehomes(s, r, r);
    forall x: Ref ensures v.pcb[x] == Rehomed(s, r, x) {
      TurnRehomes(s, r, x);
      HeadOrLater(ls, x);
      assert v.pcb[x] == Rehomed(u, r, x);
      assert s.pcb[x].children + [ls[0]] + ls[1..] == s.pcb[x].children + ls;
    }
  }

  lemma {:induction false} ReparentRehomes(s: State, r: Ref)
    requires r != s.initPcb
    ensures RehomesAll(s, ReparentAll(s, r), r)
    decreases |s.pcb[r].children|
  {
    if s.pcb[r].children != [] {
      ReparentRehomes(ReparentOne(s, r), r);
      RehomeOne(s, r, ReparentOne(s, r), ReparentAll(s, r));
    } else {
      assert s.pcb[s.initPcb].children + [] == s.pcb[s.initPcb].children;
    }
  }

  /** The parent of `r` is blocked in a wait for `r`, or for any child. */
  ghost predicate ParentWaits(s: State, r: Ref) {
    && s.pcb[r].parent.Some?
    && var p := s.pcb[r].parent.value;
       p in s.waiting && s.pcb[p].syscallNum == CALL_WAIT && s.pcb[p].arg0 in {0, s.pcb[r].pid}
  }

  /** Whom the exit of `r` wakes. */
  ghost function WokenBy(s: State, r: Ref): seq<Ref> {
    if ParentWaits(s, r) then [s.pcb[r].parent.value] else []
  }

  /** Process `x`, but for its status, after the running process exited with `v`. */
  ghost function Left(s: State, v: int, x: Ref): Pcb
    requires s.running.Some?
  {
    var r := s.running.value;
    if x == r then Rehomed(s, r, x).(syscallNum := CALL_EXIT, arg0 := v, returnValue := v) else Rehomed(s, r, x)
  }

  /** The caller is the last zombie, with its exit value and no children; those it had are the
      last of init. Who is woken is ready behind all, and the head of the ready list runs. */
  ghost predicate Exits(s: State, s': State, v: int, woken: seq<Ref>)
    requires s.running.Some?
  {
    var all := s.ready + woken;
    && s'.zombie == s.zombie + [s.running.value]
    && (if woken == [] then s'.waiting == s.waiting else Without(s.waiting, s'.waiting, woken[0]))
    && (if all == [] then s'.running == None && s'.ready == []
        else s'.running == Some(all[0]) && s'.ready == all[1..])
    && (forall x: Ref :: s'.pcb[x] == Left(s, v, x).(status :=
          if s'.running == Some(x) then Running
          else if x in woken then Ready
          else if x == s.running.value then Zombie
          else s.pcb[x].status))
    && s' == s.(zombie := s'.zombie, waiting := s'.waiting, running := s'.running, ready := s'.ready, pcb := s'.pcb)
  }

  function Leaving(s: State): State
    requires s.running.Some?
  {
    SetPcb(s, s.running.value, s.pcb[s.running.value].(returnValue := s.pcb[s.running.value].arg0))
  }

  lemma AdoptRehomes(s: State)
    requires s.running.Some? && ExitSafe(s)
    ensures RehomesAll(Leaving(s), Adopt(s), s.running.value)
  {
    hide LoopEnds, ReparentAll;
    ExitSafeExactly(s);
    var r := s.running.value;
    if r == s.initPcb {
      assert s.pcb[r].children + s.pcb[r].children == [];
    } else {
      ReparentRehomes(Leaving(s), r);
    }
  }

  lemma AdoptLeaves(s: State, v: int)
    requires s.running.Some? && ExitSafe(Trap(s, Exit(v)))
    ensures var s1 := Adopt(Trap(s, Exit(v)));
      s1 == s.(pcb := s1.pcb) && forall x: Ref :: s1.pcb[x] == Left(s, v, x)
  {
    hide Adopt, LoopEnds, HasRef;
    var t := Trap(s, Exit(v));
    AdoptRehomes(t);
    assert Leaving(t) == s.(pcb := Leaving(t).pcb);
    forall x: Ref ensures Adopt(t).pcb[x] == Left(s, v, x) {
      assert Adopt(t).pcb[x] == Rehomed(Leaving(t), s.running.value, x);
    }
  }

  /** What the rest of exit relies on. */
  ghost predicate LeaverFacts(s: State, r: Ref) {
    && s.running == Some(r) && r !in s.ready && r !in s.waiting && !HasChild(s, r, r)
    && (ParentAwaits(s, r) <==> ParentWaits(s, r))
    && forall w: Ref :: w in s.waiting ==> w !in s.ready
  }

  lemma LeaverReady(s: State)
    requires Inv(s) && s.running.Some?
    ensures LeaverFacts(s, s.running.value)
  {
    hide CoreInv, ChansInv;
    var r := s.running.value;
    RunningIsElsewhere(s);
    ExitParent(s);
    ChildrenAre(s, r);
    ParentIsWaiting(s, r);
  }

  lemma ChildrenAre(s: State, r: Ref)
    requires CoreInv(s) && Live(s, r)
    ensures forall c: Ref :: HasChild(s, r, c) ==> s.pcb[c].parent == Some(r)
  {
    hide WaitsInv, TimersInv, WaitersInv, PtrInv, DataInv, NoLostWakeUp, ListsInv, ParentsInv;
    forall c: Ref | HasChild(s, r, c)
      ensures s.pcb[c].parent == Some(r)
    {
      var i :| 0 <= i < |s.pcb[r].children| && s.pcb[r].children[i].pcb == c;
      assert ChildLinkOk(s, r, s.pcb[r].children[i]);
    }
  }

  lemma ParentIsWaiting(s: State, r: Ref)
    requires CoreInv(s) && Live(s, r)
    ensures ParentAwaits(s, r) <==> ParentWaits(s, r)
    ensures forall w: Ref :: w in s.waiting ==> w !in s.ready
  {
    hide WaitsInv, TimersInv, WaitersInv, PtrInv, DataInv, NoLostWakeUp, ChildrenInv;
    if r != s.initPcb { assert HasParent(s, r); }
  }

  /** `s'` is the state between the caller's burial and the dispatch. */
  ghost predicate Buried(s: State, s': State, v: int, woken: seq<Ref>)
    requires s.running.Some?
  {
    && s'.zombie == s.zombie + [s.running.value] && s'.ready == s.ready + woken
    && (if woken == [] then s'.waiting == s.waiting else Without(s.waiting, s'.waiting, woken[0]))
    && (forall x: Ref :: s'.pcb[x] == Left(s, v, x).(status :=
          if x in woken then Ready else if x == s.running.value then Zombie else s.pcb[x].status))
    && s' == s.(running := None, zombie := s'.zombie, waiting := s'.waiting, ready := s'.ready, pcb := s'.pcb)
  }

  lemma BuryLeaves(s: State, v: int, s1: State)
    requires s.running.Some? && LeaverFacts(s, s.running.value)
    requires s1 == s.(pcb := s1.pcb) && forall x: Ref :: s1.pcb[x] == Left(s, v, x)
    ensures var r := s.running.value; Buried(s, NotifyParent(Bury(s1, r), r), v, WokenBy(s, r))
  {
    hide HasRef, Without, Remove;
    var r := s.running.value;
    assert s.ready + [] == s.ready;
    if ParentWaits(s, r) {
      var w := s.pcb[r].parent.value;
      RemoveIsWithout(s.waiting, w);
      assert s1.pcb[w].syscallNum == s.pcb[w].syscallNum && s1.pcb[w].arg0 == s.pcb[w].arg0;
    }
  }

  lemma DispatchExits(s: State, v: int, s2: State, woken: seq<Ref>)
    requires s.running.Some? && Buried(s, s2, v, woken)
    ensures Exits(s, PickNext(s2, true), v, woken)
  {
    hide Left, Without;
  }

  lemma ExitExactly(s: State, v: int)
    requires Inv(s) && Safe(s, Exit(v))
    ensures s.running.Some? && Exits(s, Step(s, Exit(v)), v, WokenBy(s, s.running.value))
  {
    hide Inv, Step, Exits, Adopt, Bury, NotifyParent, PickNext, LoopEnds, LeaverFacts, Left, Buried, WokenBy;
    StepCall(s, Exit(v));
    LeaverReady(s);
    AdoptLeaves(s, v);
    var r, s1 := s.running.value, Adopt(Trap(s, Exit(v)));
    BuryLeaves(s, v, s1);
    DispatchExits(s, v, NotifyParent(Bury(s1, r), r), WokenBy(s, r));
    HistoryExits(s, DoExit(Trap(s, Exit(v))), v);
  }

  lemma HistoryExits(s: State, s': State, v: int)
    requires s.running.Some? && Exits(s, s', v, WokenBy(s, s.running.value))
    ensures s'.(chans := s.chans) == s'
  {
  }

  // ---------- the tick ----------

  /** The sleepers whose time has come are ready, in the order of the timer list, behind those who
      were. The head of all these runs, and who ran before is ready behind them all; with
      nobody ready, who runs goes on. */
  ghost predicate Ticked(s: State, s': State) {
    var now := s.time + 1;
    var all := s.ready + Sleepers(Due(s.timers, now));
    && s'.time == now && s'.timers == Pending(s.timers, now)
    && (forall x: Ref :: x in s'.waiting <==> x in s.waiting && !HasDue(s.timers, now, x))
    && (if all == [] then s'.running == s.running && s'.ready == []
        else s'.running == Some(all[0])
             && s'.ready == all[1..] + if s.running.Some? then [s.running.value] else [])
    && (forall x: Ref :: s'.pcb[x] == s.pcb[x].(status :=
          if all != [] && all[0] == x then Running
          else if all != [] && s.running == Some(x) then Ready
          else if HasDue(s.timers, now, x) then Ready
          else s.pcb[x].status))
    && s' == s.(time := s'.time, timers := s'.timers, timerPool := s'.timerPool, waiting := s'.waiting,
                running := s'.running, ready := s'.ready, pcb := s'.pcb)
  }

  /** Waking the sleepers changes their status, and nothing else in any process. */
  ghost predicate WakesOnly(s: State, s': State) {
    && s' == s.(timers := s'.timers, timerPool := s'.timerPool, waiting := s'.waiting,
                ready := s'.ready, pcb := s'.pcb)
    && forall x: Ref :: s'.pcb[x] == s.pcb[x].(status :=
         if HasDue(s.timers, s.time, x) then Ready else s.pcb[x].status)
  }

  lemma FirstWakesOnly(s: State)
    requires s.timers != [] && s.pcb[s.timers[0].pcb].timer == None
    ensures var s' := WakeFirst(s);
      && s' == s.(timers := s.timers[1..], timerPool := s'.timerPool, waiting := s'.waiting,
                  ready := s'.ready, pcb := s'.pcb)
      && forall x: Ref :: s'.pcb[x] == s.pcb[x].(status :=
           if x == s.timers[0].pcb then Ready else s.pcb[x].status)
  {
    hide Remove;
  }

  lemma {:induction false} DueWakesOnly(s: State)
    requires CoreInv(s)
    ensures WakesOnly(s, WakeDue(s))
    decreases |s.timers|
  {
    hide CoreInv, HasDue;
    if s.timers == [] || s.time < s.timers[0].wake {
      SortedTimers(s);
      NobodyDue(s.timers, s.time);
    } else {
      hide WakeFirst;
      var s1 := WakeFirst(s);
      HeadSleeper(s);
      FirstWakesOnly(s);
      WakeFirstKeeps(s);
      DueWakesOnly(s1);
      forall x: Ref ensures HasDue(s.timers, s.time, x) <==> x == s.timers[0].pcb || HasDue(s1.timers, s.time, x) {
        HasDueTail(s.timers, s.time, x);
      }
    }
  }

  lemma NobodyDue(ts: seq<Timer>, now: int)
    requires Sorted(ts) && (ts != [] ==> now < ts[0].wake)
    ensures forall x: Ref :: !HasDue(ts, now, x)
  {
    forall x: Ref ensures !HasDue(ts, now, x) {
      if ts != [] { LaterTimers(ts, now, x); }
    }
  }

  lemma HeadSleeper(s: State)
    requires CoreInv(s) && s.timers != []
    ensures s.pcb[s.timers[0].pcb].timer == None
  {
    FirstTimer(s);
  }

  lemma ScheduleIs(s: State)
    requires s.running.Some? ==> s.running.value !in s.ready
    ensures var s' := Schedule(s);
      && (if s.ready == [] then s'.running == s.running && s'.ready == []
          else s'.running == Some(s.ready[0])
               && s'.ready == s.ready[1..] + if s.running.Some? then [s.running.value] else [])
      && (forall x: Ref :: s'.pcb[x] == s.pcb[x].(status :=
            if s.ready != [] && s.ready[0] == x then Running
            else if s.ready != [] && s.running == Some(x) then Ready
            else s.pcb[x].status))
      && s' == s.(running := s'.running, ready := s'.ready, pcb := s'.pcb)
  {
  }

  lemma DispatchTicks(s: State, s2: State)
    requires WokenAll(s.(time := s.time + 1), s2) && WakesOnly(s.(time := s.time + 1), s2)
    requires s.running.Some? ==> s.running.value !in s2.ready
    ensures Ticked(s, Schedule(s2))
  {
    hide HasDue, Due, Pending, Sleepers, Schedule;
    ScheduleIs(s2);
  }

  lemma TickExactly(s: State)
    requires Inv(s)
    ensures Safe(s, Tick) && Ticked(s, Step(s, Tick))
  {
    hide CoreInv, ChansInv, WokenAll, WakesOnly, WakeDue, Schedule, Ticked;
    var s1 := s.(time := s.time + 1);
    LaterKeeps(s);
    HeadCheckWakesAllDue(s1);
    DueWakesOnly(s1);
    WakeDueKeeps(s1);
    RunningUnready(WakeDue(s1));
    WokenRunning(s1, WakeDue(s1));
    DispatchTicks(s, WakeDue(s1));
  }

  lemma WokenRunning(s: State, s': State)
    requires WokenAll(s, s')
    ensures s'.running == s.running
  {
  }
}
