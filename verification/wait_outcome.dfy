/** What a wait does for its caller, in each of its outcomes. */
module WaitOutcome {
  import opened Wrappers
  import opened Seqs
  import opened KernelState
  import opened Syscalls
  import opened Invariants
  import opened Scheduling
  import opened Family
  import opened Faults
  import opened Orphans
  import opened Outcomes

  /** The zombie at position `i` is reaped: it leaves the list of zombies and the children of the
      caller, its block and that of its link are given back, and its value and pid are what the
      call stores and returns. */
  ghost predicate ReapsAt(s: State, s': State, i: nat, pid: int, out: int)
    requires s.running.Some?
  {
    && i < |s.zombie|
    && var r, z := s.running.value, s.zombie[i];
    && s'.zombie == s.zombie[..i] + s.zombie[i + 1..]
    && TakesBack(s.pcbPool, s'.pcbPool, z)
    && Stores(s.mem, s'.mem, out, s.pcb[z].returnValue)
    && (exists k :: 0 <= k < |s.pcb[r].children| && LosesChild(s, s', k, z, Called(s.pcb[r], CALL_WAIT, pid, out)))
    && s' == s.(zombie := s'.zombie, pcbPool := s'.pcbPool, ptrPool := s'.ptrPool, mem := s'.mem, pcb := s'.pcb)
  }

  /** The caller, otherwise `p`, loses child `z`, number `k`, and its call returns the pid of it. */
  ghost predicate LosesChild(s: State, s': State, k: nat, z: Ref, p: Pcb)
    requires s.running.Some? && k < |s.pcb[s.running.value].children|
  {
    var r := s.running.value;
    var ls := s.pcb[r].children;
    && ls[k].pcb == z && TakesBack(s.ptrPool, s'.ptrPool, ls[k].block)
    && s'.pcb == s.pcb[r := p.(children := ls[..k] + ls[k + 1..], retval := s.pcb[z].pid)]
  }

  /** The caller waits, and who is ready takes over as it is. */
  ghost predicate WaitsForChild(s: State, s': State, pid: int, out: int)
    requires s.running.Some?
  {
    && Blocks(s, s', Called(s.pcb[s.running.value], CALL_WAIT, pid, out), false)
    && s' == s.(pcb := s'.pcb, running := s'.running, ready := s'.ready, waiting := s'.waiting)
  }

  lemma ZombieHasLink(s: State, z: Ref, r: Ref, pid: int)
    requires Inv(s) && z in s.zombie && Awaited(s, z, r, pid)
    ensures s.pcb[r].children != []
  {
    hide WaitsInv, TimersInv, WaitersInv, PtrInv, DataInv, ChansInv, NoLostWakeUp, ChildrenInv;
    assert Live(s, z);
    assert HasParent(s, z);
  }

  lemma FoundExactly(s: State, r: Ref, pid: int)
    requires Inv(s)
    ensures HasAwaitedZombie(s, r, pid) <==>
      s.pcb[r].children != [] && FindZombie(s, s.zombie, r, pid).Some?
    ensures HasAwaitedZombie(s, r, pid) <==> exists i: nat :: FirstAwaited(s, s.zombie, i, r, pid)
  {
    hide Inv, FindZombie;
    if HasAwaitedZombie(s, r, pid) {
      var z: Ref :| z in s.zombie && Awaited(s, z, r, pid);
      ZombieHasLink(s, z, r, pid);
    }
  }

  /** What the cases of wait rely on. */
  ghost predicate FamilyFacts(s: State) {
    PidsInv(s) && TreeInv(s) && ListsInv(s)
  }

  lemma FamilyReady(s: State, op: Op)
    requires Inv(s) && s.running.Some? && !op.Tick?
    ensures FamilyFacts(Trap(s, op))
  {
    hide ListsInv, PidsInv, TreeInv, ChansInv, DataInv;
    TrapKeeps(s, op);
  }

  lemma ReapIsAt(s: State, i: nat, k: nat, out: int)
    requires s.running.Some? && NoDup(s.zombie) && i < |s.zombie| && s.zombie[i] in s.pcbPool.live
    requires var r, z := s.running.value, s.zombie[i];
      && k < |s.pcb[r].children| && z != r
      && FindLink(s.pcb, s.pcb[r].children, s.pcb[z].pid) == Some(k)
      && s.pcb[r].children[k].block in s.ptrPool.live && s.pcb[r].children[k].pcb == z
      && s.pcb[r].syscallNum == CALL_WAIT && s.pcb[r].arg1 == out
    ensures var r, z := s.running.value, s.zombie[i];
      ReapsAt(s, Return(Reap(s, r, z, out), s.pcb[z].pid), i, s.pcb[r].arg0, out)
  {
    hide Reap, FindLink;
    var r, z := s.running.value, s.zombie[i];
    ReapEffect(s, r, z, out, k);
    RemoveIsRemoveAt(s.zombie, i);
    hide Remove, NoDup;
    var s' := Return(Reap(s, r, z, out), s.pcb[z].pid);
    assert Called(s.pcb[r], CALL_WAIT, s.pcb[r].arg0, out) == s.pcb[r];
    assert LosesChild(s, s', k, z, s.pcb[r]);
  }

  lemma TrapReaps(s: State, s': State, i: nat, pid: int, out: int)
    requires s.running.Some? && ReapsAt(Trap(s, Wait(pid, out)), s', i, pid, out)
    ensures ReapsAt(s, s', i, pid, out)
  {
    hide TakesBack, Stores;
    var t, z := Trap(s, Wait(pid, out)), s.zombie[i];
    var ls := t.pcb[s.running.value].children;
    var k :| 0 <= k < |ls| && LosesChild(t, s', k, z, Called(t.pcb[s.running.value], CALL_WAIT, pid, out));
    assert t.pcb[z].returnValue == s.pcb[z].returnValue && t.pcb[z].pid == s.pcb[z].pid;
    assert LosesChild(s, s', k, z, Called(s.pcb[s.running.value], CALL_WAIT, pid, out));
  }

  lemma WaitReapsFirst(s: State, pid: int, out: int) returns (i: nat)
    requires FamilyFacts(s) && s.running.Some? && s.pcb[s.running.value].children != []
    requires var p := s.pcb[s.running.value]; p.arg0 == pid && p.arg1 == out && p.syscallNum == CALL_WAIT
    requires FindZombie(s, s.zombie, s.running.value, pid).Some?
    ensures FirstAwaited(s, s.zombie, i, s.running.value, pid)
    ensures WaitSafe(s) && ReapsAt(s, DoWait(s), i, pid, out)
  {
    hide FindZombie, PidsInv, TreeInv, Reap, Unlink, ReapsAt;
    var r := s.running.value;
    var z := FindZombie(s, s.zombie, r, pid).value;
    i :| FirstAwaited(s, s.zombie, i, r, pid) && s.zombie[i] == z;
    var k := ReapFindsLink(s, r, z);
    ReapIsAt(s, i, k, out);
  }

  lemma StepReaps(s: State, pid: int, out: int) returns (i: nat)
    requires Inv(s) && s.running.Some? && HasAwaitedZombie(s, s.running.value, pid)
    ensures Safe(s, Wait(pid, out))
    ensures FirstAwaited(s, s.zombie, i, s.running.value, pid)
    ensures ReapsAt(s, Step(s, Wait(pid, out)), i, pid, out)
  {
    hide Inv, HasAwaitedZombie, FindZombie, DoWait, Step, Safe, WaitSafe, FamilyFacts, ReapsAt;
    var op := Wait(pid, out);
    FoundExactly(s, s.running.value, pid);
    FamilyReady(s, op);
    TrapFinds(s, op, s.zombie, s.running.value, pid);
    i := WaitReapsFirst(Trap(s, op), pid, out);
    StepWait(s, op);
    TrapFirst(s, op, i, pid);
    HistoryReaps(Trap(s, op), DoWait(Trap(s, op)), i, pid, out);
    TrapReaps(s, Step(s, op), i, pid, out);
  }

  lemma TrapFirst(s: State, op: Op, i: nat, pid: int)
    requires s.running.Some? && !op.Tick? && FirstAwaited(Trap(s, op), s.zombie, i, s.running.value, pid)
    ensures FirstAwaited(s, s.zombie, i, s.running.value, pid)
  {
    var t := Trap(s, op);
    assert forall x: Ref :: t.pcb[x].parent == s.pcb[x].parent && t.pcb[x].pid == s.pcb[x].pid;
  }

  lemma HistoryReaps(s: State, s': State, i: nat, pid: int, out: int)
    requires s.running.Some? && ReapsAt(s, s', i, pid, out)
    ensures ReapsAt(s, s'.(chans := s.chans), i, pid, out)
  {
    hide TakesBack, Stores;
  }

  lemma CallFindsNothing(s: State)
    requires s.running.Some? && WaitSafe(s) && s.pcb[s.running.value].syscallNum == CALL_WAIT
    requires s.pcb[s.running.value].children == [] || WaitBlocks(s)
    ensures var p := s.pcb[s.running.value];
      if p.children == [] then OnlyReturns(s, DoWait(s), p, EWAIT)
      else WaitsForChild(s, DoWait(s), p.arg0, p.arg1)
  {
    hide FindZombie, Reap;
  }

  lemma StepWaitNothing(s: State, pid: int, out: int)
    requires Inv(s) && s.running.Some? && Safe(s, Wait(pid, out)) && !HasAwaitedZombie(s, s.running.value, pid)
    ensures var r, s' := s.running.value, Step(s, Wait(pid, out));
      if s.pcb[r].children == [] then OnlyReturns(s, s', Called(s.pcb[r], CALL_WAIT, pid, out), EWAIT)
      else WaitsForChild(s, s', pid, out)
  {
    hide Inv, HasAwaitedZombie, FindZombie, DoWait, DoTick, WaitSafe;
    FoundExactly(s, s.running.value, pid);
    TrapFinds(s, Wait(pid, out), s.zombie, s.running.value, pid);
    CallFindsNothing(Trap(s, Wait(pid, out)));
  }

  /** A wait stores a value, returns a pid and reaps if and only if the caller has a zombie child
      it asked for when it calls, and it is the first such zombie that it reaps. Otherwise the
      caller without children gets its error, and any other waits, with no result. */
  lemma DeliversExactly(s: State, pid: int, out: int)
    requires Inv(s) && s.running.Some? && Safe(s, Wait(pid, out))
    ensures var r, s' := s.running.value, Step(s, Wait(pid, out));
      if HasAwaitedZombie(s, r, pid) then
        exists i: nat :: FirstAwaited(s, s.zombie, i, r, pid) && ReapsAt(s, s', i, pid, out)
      else if s.pcb[r].children == [] then OnlyReturns(s, s', Called(s.pcb[r], CALL_WAIT, pid, out), EWAIT)
      else WaitsForChild(s, s', pid, out)
  {
    hide Inv, Step, Safe, HasAwaitedZombie, FirstAwaited, ReapsAt, WaitsForChild;
    if HasAwaitedZombie(s, s.running.value, pid) {
      var i := StepReaps(s, pid, out);
    } else {
      StepWaitNothing(s, pid, out);
    }
  }
}
