/** Waiting for a pid that is no child's: wait does not look whether there is such a child, so
    the caller, unless it is init, blocks for ever. */
module Strangers {
  import opened Wrappers
  import opened KernelState
  import opened Syscalls
  import opened Invariants
  import opened Scheduling
  import opened Steps
  import opened WakeUps
  import opened FamilyTree
  import opened Stranding

  /** No child of `p` has this pid. */
  ghost predicate NoChildWith(s: State, p: Ref, pid: int) {
    forall c: Ref :: Live(s, c) && s.pcb[c].parent == Some(p) ==> s.pcb[c].pid != pid
  }

  /** `p`, not init, is blocked in a wait for a process that is not its child. */
  ghost predicate AwaitsStranger(s: State, p: Ref) {
    && p != s.initPcb && BlockedIn(s, p, CALL_WAIT)
    && s.pcb[p].arg0 != 0 && NoChildWith(s, p, s.pcb[p].arg0)
  }

  lemma StrangerWakesNobody(s: State, op: Op, p: Ref)
    requires Inv(s) && Safe(s, op) && AwaitsStranger(s, p)
    ensures !Woken(s, op, p)
  {
    hide CoreInv, Safe, Step;
    if Woken(s, op, p) {
      OneReason(s, op, p);
      RunningIsLive(s);
    }
  }

  lemma SteadyStranger(s: State, s': State, p: Ref)
    requires Steady(s, s') && AwaitsStranger(s, p) && s.running != Some(p) && p in s'.waiting
    ensures AwaitsStranger(s', p)
  {
    assert SameSavedCall(s.pcb[p], s'.pcb[p]);
    forall c: Ref | Live(s', c) && s'.pcb[c].parent == Some(p)
      ensures s'.pcb[c].pid != s'.pcb[p].arg0
    {
      assert ComesFrom(s, s', c);
    }
  }

  lemma TrapStranger(s: State, op: Op, p: Ref)
    requires s.running.Some? && !op.Tick? && s.running != Some(p)
    ensures AwaitsStranger(Trap(s, op), p) == AwaitsStranger(s, p)
  {
    var t := Trap(s, op);
    assert t.pcb[p] == s.pcb[p];
    assert forall c: Ref :: t.pcb[c].parent == s.pcb[c].parent && t.pcb[c].pid == s.pcb[c].pid;
  }

  lemma ExitStranger(s: State, p: Ref)
    requires CoreInv(s) && s.running.Some? && ExitSafe(s) && AwaitsStranger(s, p) && s.running != Some(p)
    requires p in DoExit(s).waiting
    ensures AwaitsStranger(DoExit(s), p)
  {
    hide CoreInv, LoopEnds, DoExit, Adopt;
    if s.running.value == s.initPcb {
      InitExitKeeps(s);
    } else {
      BuriedIs(s);
      DoExitIsBuried(s);
      AdoptIsAdopted(s);
      ExitLive(s);
      forall c: Ref | Live(DoExit(s), c) && DoExit(s).pcb[c].parent == Some(p)
        ensures DoExit(s).pcb[c].pid != DoExit(s).pcb[p].arg0
      {
        assert Live(s, c) && s.pcb[c].parent == Some(p);
      }
    }
  }

  lemma ExitLive(s: State)
    requires s.running.Some? && ExitSafe(s)
    ensures DoExit(s).pcbPool == s.pcbPool
  {
    hide Adopt, PickNext, LoopEnds;
    AdoptPool(s);
    DispatchPool(NotifyParent(Bury(Adopt(s), s.running.value), s.running.value));
  }

  lemma AdoptPool(s: State)
    requires s.running.Some? && ExitSafe(s)
    ensures Adopt(s).pcbPool == s.pcbPool
  {
    hide LoopEnds, ReparentAll;
    var r := s.running.value;
    if r != s.initPcb { ReparentPool(SetPcb(s, r, s.pcb[r].(returnValue := s.pcb[r].arg0)), r); }
  }

  lemma {:induction false} ReparentPool(s: State, r: Ref)
    requires r != s.initPcb
    ensures ReparentAll(s, r).pcbPool == s.pcbPool
    decreases |s.pcb[r].children|
  {
    if s.pcb[r].children != [] { ReparentPool(ReparentOne(s, r), r); }
  }

  lemma DispatchPool(s: State)
    ensures PickNext(s, true).pcbPool == s.pcbPool
  {
  }

  ghost predicate SameKin(s: State, s': State) {
    && s'.initPcb == s.initPcb && s'.pcbPool == s.pcbPool
    && forall x: Ref :: SameOrigin(s.pcb[x], s'.pcb[x]) && SameSavedCall(s.pcb[x], s'.pcb[x])
  }

  lemma KinTrans(s: State, u: State, v: State)
    requires SameKin(s, u) && SameKin(u, v)
    ensures SameKin(s, v)
  {
  }

  lemma LeaveKin(s: State, r: Ref)
    ensures SameKin(s, NotifyParent(Bury(s, r), r))
  {
  }

  lemma DispatchKin(s: State)
    ensures SameKin(s, PickNext(s, true))
  {
  }

  lemma InitAdoptKin(s: State)
    requires s.running == Some(s.initPcb) && ExitSafe(s)
    ensures SameKin(s, Adopt(s))
  {
    hide LoopEnds, ReparentAll;
  }

  lemma InitExitKeeps(s: State)
    requires s.running == Some(s.initPcb) && ExitSafe(s)
    ensures SameKin(s, DoExit(s))
  {
    hide LoopEnds, SameKin, Adopt, Bury, NotifyParent, PickNext;
    var s1 := Adopt(s);
    var s2 := NotifyParent(Bury(s1, s.initPcb), s.initPcb);
    InitAdoptKin(s);
    LeaveKin(s1, s.initPcb);
    KinTrans(s, s1, s2);
    DispatchKin(s2);
    KinTrans(s, s2, PickNext(s2, true));
  }

  lemma StrangerStep(s: State, op: Op, p: Ref)
    requires Inv(s) && Safe(s, op) && AwaitsStranger(s, p)
    ensures AwaitsStranger(Step(s, op), p)
  {
    hide CoreInv, DoTick, Handler, HandlerSafe, AwaitsStranger, Woken, Steady, Observe;
    StrangerWakesNobody(s, op, p);
    StrangerIsBlocked(s, p);
    WakesExactly(s, op, p);
    CoreLists(s);
    BlockedIsNotRunning(s, p);
    if op.Tick? {
      TickSteady(s);
      SteadyStranger(s, DoTick(s), p);
    } else {
      var t := Trap(s, op);
      TrapKeeps(s, op);
      CoreLists(t);
      TrapStranger(s, op, p);
      CallStranger(t, op, p);
      HistoryStranger(Handler(t, op), Observe(s, op, Handler(t, op)), p);
    }
  }

  lemma StrangerIsBlocked(s: State, p: Ref)
    requires AwaitsStranger(s, p)
    ensures p in s.waiting
  {
  }

  lemma BlockedIsNotRunning(s: State, p: Ref)
    requires CoreInv(s) && p in s.waiting
    ensures s.running != Some(p)
  {
  }

  lemma HistoryStranger(s: State, h: map<int, Chan>, p: Ref)
    ensures AwaitsStranger(s.(chans := h), p) == AwaitsStranger(s, p)
  {
  }

  lemma CallStranger(s: State, op: Op, p: Ref)
    requires CoreInv(s) && ListsInv(s) && s.pcbPool.Wf(MAX_NUM_PROCESSES)
    requires s.running.Some? && !op.Tick? && HandlerSafe(s, op)
    requires AwaitsStranger(s, p) && s.running != Some(p) && p in Handler(s, op).waiting
    ensures AwaitsStranger(Handler(s, op), p)
  {
    hide CoreInv, ListsInv, AwaitsStranger, Steady;
    if op.Exit? {
      hide DoExit, ExitSafe;
      ExitStranger(s, p);
    } else {
      hide Handler, HandlerSafe;
      HandlerSteady(s, op);
      SteadyStranger(s, Handler(s, op), p);
    }
  }

  lemma {:induction false} StrangerRun(s: State, ops: seq<Op>, p: Ref)
    requires Inv(s) && RunSafe(s, ops) && AwaitsStranger(s, p)
    ensures AwaitsStranger(Run(s, ops), p)
    decreases |ops|
  {
    hide Inv, Step, Safe, AwaitsStranger;
    if ops != [] {
      StepKeeps(s, ops[0]);
      StrangerStep(s, ops[0], p);
      StrangerRun(Step(s, ops[0]), ops[1..], p);
    }
  }

  // ---------- the call ----------

  lemma NothingFound(s: State, zs: seq<Ref>, p: Ref, pid: int)
    requires NoChildWith(s, p, pid) && pid != 0 && forall z: Ref :: z in zs ==> Live(s, z)
    ensures FindZombie(s, zs, p, pid) == None
  {
    assert forall z: Ref :: z in zs ==> !Awaited(s, z, p, pid);
  }

  lemma WaitBlocksCaller(s: State, pid: int)
    requires s.running.Some? && WaitSafe(s) && s.pcb[s.running.value].children != []
    requires s.pcb[s.running.value].arg0 == pid && s.pcb[s.running.value].syscallNum == CALL_WAIT
    requires pid != 0 && NoChildWith(s, s.running.value, pid) && s.running.value != s.initPcb
    requires forall z: Ref :: z in s.zombie ==> Live(s, z)
    ensures AwaitsStranger(DoWait(s), s.running.value)
  {
    hide PickNext, Reap, FindZombie, NoChildWith;
    var p := s.running.value;
    NothingFound(s, s.zombie, p, pid);
    DispatchStranger(s, p);
  }

  lemma DispatchStranger(s: State, p: Ref)
    requires s.running == Some(p) && p != s.initPcb && s.pcb[p].syscallNum == CALL_WAIT
    requires s.pcb[p].arg0 != 0 && NoChildWith(s, p, s.pcb[p].arg0)
    ensures AwaitsStranger(PickNext(Park(s), false), p)
  {
  }

  lemma StepWaitStranger(s: State, pid: int, out: int)
    requires Inv(s) && s.running.Some? && s.running.value != s.initPcb && Safe(s, Wait(pid, out))
    requires s.pcb[s.running.value].children != [] && pid != 0 && NoChildWith(s, s.running.value, pid)
    ensures AwaitsStranger(Step(s, Wait(pid, out)), s.running.value)
  {
    hide CoreInv, ChansInv, WorkConserving, NoChildWith, AwaitsStranger, DoWait, WaitSafe, DoTick;
    var t := Trap(s, Wait(pid, out));
    ZombiesLive(s);
    TrapChildless(s, Wait(pid, out), s.running.value, pid);
    WaitBlocksCaller(t, pid);
    HistoryStranger(DoWait(t), s.chans, s.running.value);
  }

  lemma TrapChildless(s: State, op: Op, p: Ref, pid: int)
    requires s.running.Some? && !op.Tick?
    ensures NoChildWith(Trap(s, op), p, pid) == NoChildWith(s, p, pid)
  {
    var t := Trap(s, op);
    assert forall c: Ref :: t.pcb[c].parent == s.pcb[c].parent && t.pcb[c].pid == s.pcb[c].pid;
  }
}
