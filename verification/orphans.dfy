/** Exit closes nothing: what a process leaves open when it is reaped stays open for ever. */
module Orphans {
  import opened Wrappers
  import opened Seqs
  import opened KernelState
  import opened Syscalls
  import opened Invariants
  import opened Bystanders
  import opened Steps

  /** The descriptor in block `b` is in use, and in no live process's list. */
  ghost predicate Orphan(s: State, b: nat) {
    && b in s.desPool.live
    && forall r: Ref, d :: Live(s, r) && d in s.pcb[r].descriptors ==> d.block != b
  }

  /** No process has gained a descriptor, and the resources are as before. */
  ghost predicate NoNewFiles(s: State, s': State) {
    && s'.desPool == s.desPool && s'.resPool == s.resPool && s'.resList == s.resList
    && forall r: Ref :: Live(s', r) ==>
         s'.pcb[r].descriptors == [] || (Live(s, r) && s'.pcb[r].descriptors == s.pcb[r].descriptors)
  }

  ghost predicate KeepsFiles(s: State, s': State) {
    && NoNewFiles(s, s') && s'.pcbPool == s.pcbPool
    && forall r: Ref :: s'.pcb[r].descriptors == s.pcb[r].descriptors
  }

  lemma PickNextFiles(s: State, mark: bool)
    ensures KeepsFiles(s, PickNext(s, mark))
  {
  }

  lemma ScheduleFiles(s: State)
    ensures KeepsFiles(s, Schedule(s))
  {
  }

  lemma {:induction false} WakeDueFiles(s: State)
    ensures KeepsFiles(s, WakeDue(s))
    decreases |s.timers|
  {
    hide KeepsFiles, WakeFirst;
    if s.timers != [] && s.timers[0].wake <= s.time {
      WakeFirstFiles(s);
      WakeDueFiles(WakeFirst(s));
      KeepsFilesTrans(s, WakeFirst(s), WakeDue(s));
    } else {
      KeepsFilesRefl(s);
    }
  }

  lemma KeepsFilesRefl(s: State)
    ensures KeepsFiles(s, s)
  {
  }

  lemma KeepsFilesTrans(s: State, u: State, v: State)
    requires KeepsFiles(s, u) && KeepsFiles(u, v)
    ensures KeepsFiles(s, v)
  {
  }

  lemma WakeFirstFiles(s: State)
    requires s.timers != []
    ensures KeepsFiles(s, WakeFirst(s)) && |WakeFirst(s).timers| < |s.timers|
  {
  }

  lemma TickFiles(s: State)
    ensures KeepsFiles(s, DoTick(s))
  {
    hide WakeDue, Schedule;
    WakeDueFiles(s.(time := s.time + 1));
    ScheduleFiles(WakeDue(s.(time := s.time + 1)));
  }

  lemma SpawnOpensNothing(s: State)
    requires s.running.Some? && SpawnSafe(s)
    ensures NoNewFiles(s, DoSpawn(s))
  {
  }

  lemma UnlinkFiles(s: State, r: Ref, pid: int)
    ensures KeepsFiles(s, Unlink(s, r, pid))
  {
  }

  lemma WaitFiles(s: State)
    requires s.running.Some? && WaitSafe(s)
    ensures NoNewFiles(s, DoWait(s))
  {
    hide Unlink, PickNext;
    var r := s.running.value;
    var z := FindZombie(s, s.zombie, r, s.pcb[r].arg0);
    if WaitBlocks(s) {
      PickNextFiles(Park(s), false);
    } else if z.Some? {
      UnlinkFiles(s.(zombie := Remove(s.zombie, z.value)), r, s.pcb[z.value].pid);
    }
  }

  lemma {:induction false} ReparentAllFiles(s: State, r: Ref)
    requires r != s.initPcb
    ensures KeepsFiles(s, ReparentAll(s, r))
    decreases |s.pcb[r].children|
  {
    hide KeepsFiles, ReparentOne;
    if s.pcb[r].children == [] {
      KeepsFilesRefl(s);
    } else {
      ReparentOneFiles(s, r);
      ReparentAllFiles(ReparentOne(s, r), r);
      KeepsFilesTrans(s, ReparentOne(s, r), ReparentAll(s, r));
    }
  }

  lemma ReparentOneFiles(s: State, r: Ref)
    requires r != s.initPcb && s.pcb[r].children != []
    ensures KeepsFiles(s, ReparentOne(s, r))
    ensures ReparentOne(s, r).initPcb == s.initPcb
    ensures |ReparentOne(s, r).pcb[r].children| < |s.pcb[r].children|
  {
  }

  lemma ExitFiles(s: State)
    requires s.running.Some? && ExitSafe(s)
    ensures KeepsFiles(s, DoExit(s))
  {
    hide PickNext, Adopt, Bury, NotifyParent, KeepsFiles;
    var r := s.running.value;
    var s1, s2 := Adopt(s), NotifyParent(Bury(Adopt(s), r), r);
    AdoptFiles(s);
    LeaveFiles(s1, r);
    KeepsFilesTrans(s, s1, s2);
    PickNextFiles(s2, true);
    KeepsFilesTrans(s, s2, PickNext(s2, true));
  }

  lemma AdoptFiles(s: State)
    requires s.running.Some? && ExitSafe(s)
    ensures KeepsFiles(s, Adopt(s))
  {
    hide ReparentAll, LoopEnds;
    var r := s.running.value;
    if r != s.initPcb { ReparentAllFiles(SetPcb(s, r, s.pcb[r].(returnValue := s.pcb[r].arg0)), r); }
  }

  lemma LeaveFiles(s: State, r: Ref)
    ensures KeepsFiles(s, NotifyParent(Bury(s, r), r))
  {
  }

  lemma SleepFiles(s: State)
    requires s.running.Some?
    ensures KeepsFiles(s, DoSleep(s))
  {
    hide TimerInsert;
  }

  lemma HandToGetterFiles(s: State, id: int, v: int)
    requires id in s.queues && s.queues[id].getters != []
    ensures KeepsFiles(s, HandToGetter(s, id, v))
  {
  }

  lemma CreateFiles(s: State)
    requires s.running.Some?
    ensures KeepsFiles(s, DoCreate(s))
  {
  }

  lemma DeleteFiles(s: State)
    requires s.running.Some?
    ensures KeepsFiles(s, DoDelete(s))
  {
    hide GiveItems;
  }

  lemma PutFiles(s: State)
    requires s.running.Some? && PutSafe(s)
    ensures KeepsFiles(s, DoPut(s))
  {
    hide PickNext, HandToGetter;
    var id, v := s.pcb[s.running.value].arg0, s.pcb[s.running.value].arg1;
    if PutBlocks(s) {
      PickNextFiles(Park(JoinPutters(s, id)), true);
    } else if id in s.queues && s.queues[id].getters != [] {
      HandToGetterFiles(s, id, v);
    }
  }

  lemma RefillFiles(s: State, id: int)
    requires id in s.queues
    ensures KeepsFiles(s, Refill(s, id))
  {
  }

  lemma GetFiles(s: State)
    requires s.running.Some? && GetSafe(s)
    ensures KeepsFiles(s, DoGet(s))
  {
    hide PickNext, Refill;
    var id, out := s.pcb[s.running.value].arg0, s.pcb[s.running.value].arg1;
    if GetBlocks(s) {
      PickNextFiles(Park(JoinGetters(s, id)), true);
    } else if id in s.queues && s.queues[id].items != [] {
      RefillFiles(TakeItem(s, id, out), id);
    }
  }

  predicate FileCall(op: Op) {
    op.Open? || op.Close? || op.Destroy?
  }

  lemma OtherCallFiles(s: State, op: Op)
    requires s.running.Some? && !op.Tick? && !FileCall(op) && HandlerSafe(s, op)
    ensures NoNewFiles(s, Handler(s, op))
  {
    hide Schedule, DoSpawn, DoWait, DoExit, DoSleep, DoPut, DoGet, GiveItems;
    match op
    case Preempt => ScheduleFiles(s);
    case Fork => SpawnOpensNothing(s);
    case Spawn(_, _) => SpawnOpensNothing(s);
    case Wait(_, _) => WaitFiles(s);
    case Exit(_) => ExitFiles(s);
    case Sleep(_) => SleepFiles(s);
    case Put(_, _) => PutFiles(s);
    case Get(_, _) => GetFiles(s);
    case _ =>
  }

  // ---------- orphans stay ----------

  /** Descriptor `b` is still in use, for the same resource, which still has its id. */
  ghost predicate StaysOrphan(s: State, s': State, b: nat)
    requires b in s.desPool.live && s.desPool.live[b].res in s.resPool.live
  {
    var rb := s.desPool.live[b].res;
    && Orphan(s', b) && s'.desPool.live[b] == s.desPool.live[b]
    && rb in s'.resPool.live && s'.resPool.live[rb].id == s.resPool.live[rb].id
  }

  lemma OrphanHasResource(s: State, b: nat)
    requires ResourcesInv(s) && Orphan(s, b)
    ensures s.desPool.live[b].res in s.resPool.live
    ensures DescriptorPtr(b, b) in s.resPool.live[s.desPool.live[b].res].descriptorPtrs
  {
    assert DescriptorOk(s.desPool.live, s.resPool.live, b);
  }

  lemma OpenFoundOrphan(s: State, rb: nat, b: nat)
    requires s.running.Some? && Orphan(s, b) && rb in s.resPool.live
    requires s.desPool.free != [] ==> s.desPtrPool.free != [] && s.desPool.free[0] != b
    requires s.desPool.live[b].res in s.resPool.live
    ensures StaysOrphan(s, OpenFound(s, rb), b)
  {
  }

  lemma OpenOrphan(s: State, b: nat)
    requires ResourcesInv(s) && PoolsInv(s) && s.running.Some? && OpenSafe(s) && Orphan(s, b)
    requires s.desPool.live[b].res in s.resPool.live
    ensures StaysOrphan(s, DoOpen(s), b)
  {
    hide OpenFound, ResourceById, ResourcesInv;
    var p := s.pcb[s.running.value];
    var found := ResourceById(s.resPool.live, s.resList, p.arg0);
    assert s.desPool.free != [] ==> s.desPool.free[0] in s.desPool.free;
    assert s.resPool.free != [] ==> s.resPool.free[0] in s.resPool.free;
    if CreateBit(p.arg2) && found.None? {
      OpenFoundOrphan(AddResource(s, p.arg0, p.arg1), s.resPool.free[0], b);
    } else if !CreateBit(p.arg2) && found.Some? {
      OpenFoundOrphan(s, found.value, b);
    }
  }

  lemma CloseOrphan(s: State, b: nat)
    requires s.running.Some? && Live(s, s.running.value) && Orphan(s, b)
    requires s.desPool.live[b].res in s.resPool.live
    ensures StaysOrphan(s, DoClose(s), b)
  {
    hide Remove;
    var p := s.pcb[s.running.value];
    var i := DescriptorByFd(p.descriptors, p.arg0);
    if i.Some? { assert p.descriptors[i.value] in p.descriptors; }
  }

  lemma DestroyOrphan(s: State, b: nat)
    requires ResourcesInv(s) && s.running.Some? && Orphan(s, b)
    requires s.desPool.live[b].res in s.resPool.live
    ensures StaysOrphan(s, DoDestroy(s), b)
  {
    hide ResourcesInv, ResourceById;
    OrphanHasResource(s, b);
  }

  lemma OtherCallOrphan(s: State, s': State, b: nat)
    requires Orphan(s, b) && s.desPool.live[b].res in s.resPool.live && NoNewFiles(s, s')
    ensures StaysOrphan(s, s', b)
  {
  }

  lemma HandlerOrphan(s: State, op: Op, b: nat)
    requires ResourcesInv(s) && PoolsInv(s) && s.running.Some? && Live(s, s.running.value)
    requires !op.Tick? && HandlerSafe(s, op) && Orphan(s, b)
    requires s.desPool.live[b].res in s.resPool.live
    ensures StaysOrphan(s, Handler(s, op), b)
  {
    hide ResourcesInv, PoolsInv, Orphan, StaysOrphan, NoNewFiles;
    if FileCall(op) {
      hide DoOpen, DoClose, DoDestroy, OpenSafe;
      match op
      case Open(_, _, _) => OpenOrphan(s, b);
      case Close(_) => CloseOrphan(s, b);
      case Destroy(_) => DestroyOrphan(s, b);
    } else {
      hide Handler;
      OtherCallFiles(s, op);
      OtherCallOrphan(s, Handler(s, op), b);
    }
  }

  lemma StepOrphan(s: State, op: Op, b: nat)
    requires Inv(s) && Safe(s, op) && Orphan(s, b)
    requires s.desPool.live[b].res in s.resPool.live
    ensures StaysOrphan(s, Step(s, op), b)
  {
    hide Inv, DoTick, Handler, HandlerSafe, ResourcesInv, PoolsInv;
    if op.Tick? {
      TickFiles(s);
      OtherCallOrphan(s, DoTick(s), b);
    } else {
      TrapFiles(s, op);
      HandlerOrphan(Trap(s, op), op, b);
    }
  }

  lemma TrapFiles(s: State, op: Op)
    requires Inv(s) && s.running.Some? && !op.Tick?
    ensures var t := Trap(s, op);
      ResourcesInv(t) && PoolsInv(t) && Live(t, t.running.value)
  {
  }

  /** Over any run an orphan stays: still in use, still in the list of the same resource,
      which stays registered under its id. */
  lemma {:induction false} OrphansStay(s: State, ops: seq<Op>, b: nat)
    requires Inv(s) && RunSafe(s, ops) && Orphan(s, b)
    ensures s.desPool.live[b].res in s.resPool.live
    ensures StaysOrphan(s, Run(s, ops), b)
    decreases |ops|
  {
    hide CoreInv, ChansInv, WorkConserving, Step, Safe;
    InvResources(s);
    OrphanHasResource(s, b);
    if ops != [] {
      StepKeeps(s, ops[0]);
      StepOrphan(s, ops[0], b);
      OrphansStay(Step(s, ops[0]), ops[1..], b);
    }
  }

  lemma InvResources(s: State)
    requires Inv(s)
    ensures ResourcesInv(s)
  {
  }

  lemma StepDestroy(s: State, op: Op)
    requires s.running.Some? && op.Destroy?
    ensures Safe(s, op) && Step(s, op) == DoDestroy(Trap(s, op))
  {
    hide DoDestroy, DoTick;
    DestroyBystander(Trap(s, op));
  }

  /** The resource of an orphan can never be destroyed: the call is refused for ever. */
  lemma NeverDestroyed(s: State, ops: seq<Op>, b: nat)
    requires Inv(s) && RunSafe(s, ops) && Orphan(s, b)
    ensures s.desPool.live[b].res in s.resPool.live
    ensures var s' := Run(s, ops);
      var destroy := Destroy(s.resPool.live[s.desPool.live[b].res].id);
      s'.running.Some? ==>
        Safe(s', destroy) && Step(s', destroy).pcb[s'.running.value].retval == ERESOURCEINUSE
  {
    hide Inv, Step, Safe, ResourcesInv;
    OrphansStay(s, ops, b);
    RunKeeps(s, ops);
    var s' := Run(s, ops);
    if s'.running.Some? {
      var id := s.resPool.live[s.desPool.live[b].res].id;
      InvResources(s');
      OrphanHasResource(s', b);
      FoundById(s', s'.desPool.live[b].res);
      StepDestroy(s', Destroy(id));
    }
  }

  lemma FoundById(s: State, rb: nat)
    requires ResourcesInv(s) && rb in s.resPool.live
    ensures ResourceById(s.resPool.live, s.resList, s.resPool.live[rb].id) == Some(rb)
  {
    hide ResourceById;
    assert rb in s.resList;
  }

  lemma GoneProcessOrphans(s: State, s': State, z: Ref, i: nat)
    requires FdsInv(s) && Live(s, z) && i < |s.pcb[z].descriptors|
    requires NoNewFiles(s, s') && !Live(s', z)
    ensures Orphan(s', s.pcb[z].descriptors[i].block)
  {
    var d := s.pcb[z].descriptors[i];
    assert FdsOk(s.desPool.live, s.pcb[z], z) && d in s.pcb[z].descriptors;
    forall r: Ref, x | Live(s', r) && x in s'.pcb[r].descriptors
      ensures x.block != d.block
    {
      assert FdsOk(s.desPool.live, s.pcb[r], r);
    }
  }

  lemma ReapFrees(s: State, r: Ref, z: Ref, out: int, v: int)
    requires s.running.Some?
    ensures !Live(Return(Reap(s, r, z, out), v), z)
  {
  }

  lemma WaitReaps(s: State, pid: int, out: int, z: Ref)
    requires ListsInv(s) && FdsInv(s) && s.running.Some? && s.pcb[s.running.value].children != []
    requires FindZombie(s, s.zombie, s.running.value, pid) == Some(z)
    requires s.pcb[s.running.value].arg0 == pid && s.pcb[s.running.value].arg1 == out
    ensures WaitSafe(s) && !Live(DoWait(s), z) && Live(s, z)
    ensures NoNewFiles(s, DoWait(s))
  {
    WaitFiles(s);
    hide Reap, Return;
    ReapFrees(s, s.running.value, z, out, s.pcb[z].pid);
  }

  lemma InvFds(s: State)
    requires Inv(s)
    ensures ListsInv(s) && FdsInv(s)
  {
  }

  lemma TrapWait(s: State, pid: int, out: int)
    requires ListsInv(s) && FdsInv(s) && s.running.Some?
    ensures var t := Trap(s, Wait(pid, out));
      var r := s.running.value;
      && ListsInv(t) && FdsInv(t) && t.running == s.running
      && t.pcb[r].arg0 == pid && t.pcb[r].arg1 == out
      && t.pcb[r].children == s.pcb[r].children
      && forall x: Ref :: t.pcb[x].descriptors == s.pcb[x].descriptors
  {
  }

  lemma TrapFinds(s: State, op: Op, zs: seq<Ref>, r: Ref, pid: int)
    requires s.running.Some? && !op.Tick?
    ensures FindZombie(Trap(s, op), zs, r, pid) == FindZombie(s, zs, r, pid)
    ensures Trap(s, op).zombie == s.zombie
  {
  }

  lemma StepWait(s: State, op: Op)
    requires s.running.Some? && op.Wait? && WaitSafe(Trap(s, op))
    ensures Safe(s, op) && Step(s, op) == DoWait(Trap(s, op)).(chans := s.chans)
  {
    hide DoWait, DoTick;
  }

  lemma HistoryFiles(s: State, s': State, h: map<int, Chan>)
    requires NoNewFiles(s, s')
    ensures NoNewFiles(s, s'.(chans := h))
  {
  }

  /** A descriptor that is still open when its process is reaped becomes an orphan. */
  lemma ReapOrphans(s: State, pid: int, out: int, z: Ref, i: nat)
    requires Inv(s) && s.running.Some? && s.pcb[s.running.value].children != []
    requires FindZombie(s, s.zombie, s.running.value, pid) == Some(z)
    requires i < |s.pcb[z].descriptors|
    ensures Safe(s, Wait(pid, out))
    ensures Orphan(Step(s, Wait(pid, out)), s.pcb[z].descriptors[i].block)
  {
    hide Inv, Trap, Step, Safe, DoWait, Orphan, ListsInv, FdsInv, WaitSafe, NoNewFiles, FindZombie;
    var op := Wait(pid, out);
    var t := Trap(s, op);
    InvFds(s);
    TrapWait(s, pid, out);
    TrapFinds(s, op, s.zombie, s.running.value, pid);
    WaitReaps(t, pid, out, z);
    StepWait(s, op);
    HistoryFiles(t, DoWait(t), s.chans);
    GoneProcessOrphans(t, Step(s, op), z, i);
  }

  // ---------- exactly when ----------

  /** Process `r` has the descriptor in block `b` in its list. */
  ghost predicate Holds(s: State, r: Ref, b: nat) {
    Live(s, r) && exists d :: d in s.pcb[r].descriptors && d.block == b
  }

  lemma SomebodyHolds(s: State, b: nat) returns (r: Ref)
    requires b in s.desPool.live && !Orphan(s, b)
    ensures Holds(s, r, b)
  {
    var x: Ref, d :| Live(s, x) && d in s.pcb[x].descriptors && d.block == b;
    r := x;
  }

  /** Every process but `gone` lives on with the descriptors it has, and the pool is as before. */
  ghost predicate FilesKept(s: State, s': State, gone: Option<Ref>) {
    && s'.desPool == s.desPool
    && forall r: Ref :: Live(s, r) && gone != Some(r) ==>
         Live(s', r) && s'.pcb[r].descriptors == s.pcb[r].descriptors
  }

  lemma SpawnKept(s: State)
    requires s.running.Some? && SpawnSafe(s) && s.pcbPool.Wf(MAX_NUM_PROCESSES)
    ensures FilesKept(s, DoSpawn(s), None)
  {
    assert s.pcbPool.free[0] in s.pcbPool.free;
  }

  /** The zombie that a wait reaps, if it reaps one. */
  function ZombieToReap(s: State, pid: int): Option<Ref> {
    if s.running.None? || s.pcb[s.running.value].children == [] then None
    else FindZombie(s, s.zombie, s.running.value, pid)
  }

  lemma WaitKept(s: State)
    requires s.running.Some? && WaitSafe(s)
    ensures FilesKept(s, DoWait(s), ZombieToReap(s, s.pcb[s.running.value].arg0))
  {
    hide Unlink, PickNext;
    var r := s.running.value;
    var z := FindZombie(s, s.zombie, r, s.pcb[r].arg0);
    if WaitBlocks(s) {
      PickNextFiles(Park(s), false);
    } else if z.Some? {
      UnlinkFiles(s.(zombie := Remove(s.zombie, z.value)), r, s.pcb[z.value].pid);
    }
  }

  lemma KeptAreHeld(s: State, s': State, gone: Option<Ref>, b: nat)
    requires FilesKept(s, s', gone) && !Orphan(s, b)
    requires gone.Some? ==> !Holds(s, gone.value, b)
    ensures !Orphan(s', b)
  {
    if b in s.desPool.live {
      var r := SomebodyHolds(s, b);
      assert Holds(s', r, b);
    }
  }

  lemma OpenFoundHeld(s: State, rb: nat, b: nat)
    requires s.running.Some? && Live(s, s.running.value) && rb in s.resPool.live && !Orphan(s, b)
    requires s.desPool.free != [] ==> s.desPtrPool.free != []
    ensures !Orphan(OpenFound(s, rb), b)
  {
    var s' := OpenFound(s, rb);
    var ds, ds' := s.pcb[s.running.value].descriptors, s'.pcb[s.running.value].descriptors;
    assert ds' == ds || |ds'| == |ds| + 1;
    if b in s.desPool.live {
      var r := SomebodyHolds(s, b);
      assert Holds(s', r, b);
    } else if b in s'.desPool.live {
      assert ds'[|ds|] in ds' && Holds(s', s.running.value, b);
    }
  }

  lemma SameHeld(s: State, s': State, b: nat)
    requires s'.desPool == s.desPool && s'.pcbPool == s.pcbPool
    requires forall r: Ref :: s'.pcb[r].descriptors == s.pcb[r].descriptors
    ensures Orphan(s', b) == Orphan(s, b)
  {
  }

  lemma OpenHeld(s: State, b: nat)
    requires s.running.Some? && Live(s, s.running.value) && OpenSafe(s) && !Orphan(s, b)
    ensures !Orphan(DoOpen(s), b)
  {
    hide OpenFound, ResourceById;
    var p := s.pcb[s.running.value];
    var found := ResourceById(s.resPool.live, s.resList, p.arg0);
    if CreateBit(p.arg2) && found.None? {
      SameHeld(s, AddResource(s, p.arg0, p.arg1), b);
      OpenFoundHeld(AddResource(s, p.arg0, p.arg1), s.resPool.free[0], b);
    } else if !CreateBit(p.arg2) && found.Some? {
      OpenFoundHeld(s, found.value, b);
    } else {
      SameHeld(s, DoOpen(s), b);
    }
  }

  lemma DropHeld(s: State, i: nat, b: nat)
    requires s.running.Some? && i < |s.pcb[s.running.value].descriptors| && !Orphan(s, b)
    ensures !Orphan(Return(DropDescriptor(s, i), 0), b)
  {
    hide Remove;
    var s' := Return(DropDescriptor(s, i), 0);
    if b in s'.desPool.live {
      var r := SomebodyHolds(s, b);
      var ds, ds' := s.pcb[r].descriptors, s'.pcb[r].descriptors;
      var d :| d in ds && d.block == b;
      assert d in ds' by {
        if r == s.running.value {
          var k :| 0 <= k < |ds| && ds[k] == d;
          assert k != i ==> ds'[if k < i then k else k - 1] == d;
        }
      }
      assert Holds(s', r, b);
    }
  }

  lemma CloseHeld(s: State, b: nat)
    requires s.running.Some? && !Orphan(s, b)
    ensures !Orphan(DoClose(s), b)
  {
    hide DropDescriptor, DescriptorByFd;
    var p := s.pcb[s.running.value];
    var i := DescriptorByFd(p.descriptors, p.arg0);
    if i.Some? { DropHeld(s, i.value, b); } else { SameHeld(s, DoClose(s), b); }
  }

  lemma DestroyHeld(s: State, b: nat)
    requires s.running.Some? && !Orphan(s, b)
    ensures !Orphan(DoDestroy(s), b)
  {
    hide ResourceById, Remove;
    SameHeld(s, DoDestroy(s), b);
  }

  lemma OtherCallHeld(s: State, op: Op, b: nat)
    requires s.running.Some? && !op.Tick? && !FileCall(op) && !op.Wait? && HandlerSafe(s, op)
    requires s.pcbPool.Wf(MAX_NUM_PROCESSES)
    ensures FilesKept(s, Handler(s, op), None)
  {
    hide Schedule, DoSpawn, DoExit, DoSleep, DoCreate, DoDelete, DoPut, DoGet;
    match op
    case Preempt => ScheduleFiles(s);
    case Create(_, _) => CreateFiles(s);
    case Delete(_) => DeleteFiles(s);
    case Fork => SpawnKept(s);
    case Spawn(_, _) => SpawnKept(s);
    case Exit(_) => ExitFiles(s);
    case Sleep(_) => SleepFiles(s);
    case Put(_, _) => PutFiles(s);
    case Get(_, _) => GetFiles(s);
  }

  lemma HandlerHeld(s: State, op: Op, b: nat)
    requires s.running.Some? && Live(s, s.running.value) && s.pcbPool.Wf(MAX_NUM_PROCESSES)
    requires !op.Tick? && HandlerSafe(s, op) && !Orphan(s, b)
    requires op.Wait? ==>
      var z := ZombieToReap(s, s.pcb[s.running.value].arg0); z.Some? ==> !Holds(s, z.value, b)
    ensures !Orphan(Handler(s, op), b)
  {
    hide Orphan, FilesKept, Holds, ZombieToReap;
    if FileCall(op) {
      hide DoOpen, DoClose, DoDestroy, OpenSafe;
      match op
      case Open(_, _, _) => OpenHeld(s, b);
      case Close(_) => CloseHeld(s, b);
      case Destroy(_) => DestroyHeld(s, b);
    } else if op.Wait? {
      hide DoWait, WaitSafe;
      WaitKept(s);
      KeptAreHeld(s, DoWait(s), ZombieToReap(s, s.pcb[s.running.value].arg0), b);
    } else {
      hide Handler;
      OtherCallHeld(s, op, b);
      KeptAreHeld(s, Handler(s, op), None, b);
    }
  }

  /** The step is a wait that reaps a process which has descriptor `b` open. */
  ghost predicate ReapsHolder(s: State, op: Op, b: nat) {
    op.Wait? && ZombieToReap(s, op.pid).Some? && Holds(s, ZombieToReap(s, op.pid).value, b)
  }

  lemma TrapHolds(s: State, op: Op, b: nat)
    requires s.running.Some? && !op.Tick?
    ensures Orphan(Trap(s, op), b) == Orphan(s, b)
    ensures forall r: Ref :: Holds(Trap(s, op), r, b) == Holds(s, r, b)
    ensures forall pid :: ZombieToReap(Trap(s, op), pid) == ZombieToReap(s, pid)
  {
    hide FindZombie;
    SameHeld(s, Trap(s, op), b);
    forall pid ensures ZombieToReap(Trap(s, op), pid) == ZombieToReap(s, pid) {
      TrapFinds(s, op, s.zombie, s.running.value, pid);
    }
  }

  lemma InvPcbs(s: State)
    requires Inv(s)
    ensures s.pcbPool.Wf(MAX_NUM_PROCESSES)
    ensures s.running.Some? ==> Live(s, s.running.value)
  {
  }

  lemma TickHeld(s: State, b: nat)
    requires !Orphan(s, b)
    ensures !Orphan(DoTick(s), b)
  {
    hide DoTick, Orphan;
    TickFiles(s);
    KeptAreHeld(s, DoTick(s), None, b);
  }

  lemma HistoryOrphan(s: State, h: map<int, Chan>, b: nat)
    ensures Orphan(s.(chans := h), b) == Orphan(s, b)
  {
  }

  lemma OnlyReapingOrphans(s: State, op: Op, b: nat)
    requires Inv(s) && Safe(s, op) && !Orphan(s, b) && !ReapsHolder(s, op, b)
    ensures !Orphan(Step(s, op), b)
  {
    hide Inv, DoTick, Handler, HandlerSafe, Orphan, Holds, ZombieToReap, Observe;
    InvPcbs(s);
    if op.Tick? {
      TickHeld(s, b);
    } else {
      var t := Trap(s, op);
      TrapHolds(s, op, b);
      HandlerHeld(t, op, b);
      HistoryOrphan(Handler(t, op), Observe(s, op, Handler(t, op)), b);
    }
  }

  /** A step makes a descriptor an orphan if and only if it reaps the process that has it open. */
  lemma OrphansExactly(s: State, op: Op, b: nat)
    requires Inv(s) && Safe(s, op) && !Orphan(s, b)
    ensures Orphan(Step(s, op), b) <==> ReapsHolder(s, op, b)
  {
    hide Inv, Step, Safe, FindZombie;
    if ReapsHolder(s, op, b) {
      var z := ZombieToReap(s, op.pid).value;
      var d :| d in s.pcb[z].descriptors && d.block == b;
      var i :| 0 <= i < |s.pcb[z].descriptors| && s.pcb[z].descriptors[i] == d;
      ReapOrphans(s, op.pid, op.result, z, i);
    } else {
      OnlyReapingOrphans(s, op, b);
    }
  }

  // ---------- whole runs ----------

  ghost predicate HasOrphan(s: State) {
    exists b :: Orphan(s, b)
  }

  /** The step reaps a process that has a descriptor open. */
  ghost predicate ReapsOpen(s: State, op: Op) {
    op.Wait? && ZombieToReap(s, op.pid).Some? && s.pcb[ZombieToReap(s, op.pid).value].descriptors != []
  }

  ghost predicate ReapsOpenDuring(s: State, ops: seq<Op>)
    requires RunSafe(s, ops)
    decreases |ops|
  {
    ops != [] && (ReapsOpen(s, ops[0]) || ReapsOpenDuring(Step(s, ops[0]), ops[1..]))
  }

  lemma HeldByReaped(s: State, op: Op) returns (b: nat)
    requires Inv(s) && ReapsOpen(s, op)
    ensures ReapsHolder(s, op, b) && !Orphan(s, b)
  {
    hide Inv, FindZombie;
    var z := ZombieToReap(s, op.pid).value;
    ZombiesAreLive(s);
    b := s.pcb[z].descriptors[0].block;
    assert s.pcb[z].descriptors[0] in s.pcb[z].descriptors && Holds(s, z, b);
  }

  lemma ZombiesAreLive(s: State)
    requires Inv(s)
    ensures forall z: Ref :: z in s.zombie ==> Live(s, z)
  {
  }

  /** A run that starts without orphans ends without one if and only if it never reaped a
      process that had a descriptor open. */
  lemma {:induction false} OrphanRunExactly(s: State, ops: seq<Op>)
    requires Inv(s) && RunSafe(s, ops) && !HasOrphan(s)
    ensures HasOrphan(Run(s, ops)) <==> ReapsOpenDuring(s, ops)
    decreases |ops|
  {
    hide Inv, Step, Safe, ReapsOpen, ReapsHolder, Orphan, StaysOrphan;
    if ops != [] {
      var s1 := Step(s, ops[0]);
      StepKeeps(s, ops[0]);
      if ReapsOpen(s, ops[0]) {
        var b := HeldByReaped(s, ops[0]);
        OrphansExactly(s, ops[0], b);
        OrphanAtEnd(s1, ops[1..], b);
      } else {
        forall b ensures !Orphan(s1, b) {
          OrphansExactly(s, ops[0], b);
          HolderHasOpen(s, ops[0], b);
        }
        OrphanRunExactly(s1, ops[1..]);
      }
    }
  }

  lemma OrphanAtEnd(s: State, ops: seq<Op>, b: nat)
    requires Inv(s) && RunSafe(s, ops) && Orphan(s, b)
    ensures Orphan(Run(s, ops), b)
  {
    hide Inv, Run, RunSafe;
    OrphansStay(s, ops, b);
  }

  lemma HolderHasOpen(s: State, op: Op, b: nat)
    ensures ReapsHolder(s, op, b) ==> ReapsOpen(s, op)
  {
    hide ZombieToReap;
  }

  lemma NoOrphanAtBoot()
    ensures !HasOrphan(Boot())
  {
  }
}
