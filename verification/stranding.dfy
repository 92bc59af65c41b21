/** The one wake-up that can get lost, over all steps and over runs: only an exit can leave a
    waiting init with a zombie that it asked for. */
module Stranding {
  import opened Wrappers
  import opened Seqs
  import opened KernelState
  import opened Syscalls
  import opened Invariants
  import opened ExitLoop
  import opened Scheduling
  import opened Blocking
  import opened Bystanders
  import opened Steps
  import opened FamilyTree

  predicate SameSavedCall(p: Pcb, p': Pcb) {
    p'.syscallNum == p.syscallNum && p'.arg0 == p.arg0
  }

  predicate SameOrigin(p: Pcb, p': Pcb) {
    p'.parent == p.parent && p'.pid == p.pid
  }

  /** No zombie is new or has a new parent, nobody's saved call has changed, new processes are
      children of the caller, and nobody waits who did not wait before, except a process that
      has just blocked. */
  ghost predicate Steady(s: State, s': State) {
    && s'.initPcb == s.initPcb
    && (forall p: Ref :: SameSavedCall(s.pcb[p], s'.pcb[p]))
    && (forall z: Ref :: z in s'.zombie ==> z in s.zombie && SameOrigin(s.pcb[z], s'.pcb[z]))
    && (forall p: Ref :: p in s'.waiting ==> p in s.waiting || s.running == Some(p))
    && (forall c: Ref :: Live(s', c) ==> ComesFrom(s, s', c))
  }

  ghost predicate ComesFrom(s: State, s': State, c: Ref) {
    || (Live(s, c) && SameOrigin(s.pcb[c], s'.pcb[c]))
    || (s.running.Some? && s'.pcb[c].parent == s.running)
  }

  /** The same processes are in the same states of life, with the same saved calls. */
  ghost predicate Plain(s: State, s': State) {
    && s'.initPcb == s.initPcb && s'.pcbPool == s.pcbPool && s'.zombie == s.zombie
    && (forall x: Ref :: SameOrigin(s.pcb[x], s'.pcb[x]) && SameSavedCall(s.pcb[x], s'.pcb[x]))
    && (forall p: Ref :: p in s'.waiting ==> p in s.waiting || s.running == Some(p))
  }

  lemma PlainIsSteady(s: State, s': State)
    requires Plain(s, s')
    ensures Steady(s, s')
  {
    forall c: Ref | Live(s', c) ensures ComesFrom(s, s', c) {
      assert SameOrigin(s.pcb[c], s'.pcb[c]);
    }
  }

  lemma SteadyTrans(s: State, u: State, v: State)
    requires Steady(s, u) && Steady(u, v) && u.running == s.running
    ensures Steady(s, v)
  {
  }

  lemma PickNextSteady(s: State, u: State, mark: bool)
    requires Steady(s, u)
    ensures Steady(s, PickNext(u, mark))
  {
    forall c: Ref | Live(PickNext(u, mark), c) ensures ComesFrom(s, PickNext(u, mark), c) {
      assert ComesFrom(s, u, c);
    }
  }

  lemma ReturnSteady(s: State, u: State, v: int)
    requires Steady(s, u) && u.running == s.running && s.running.Some?
    ensures Steady(s, Return(u, v))
  {
    forall c: Ref | Live(Return(u, v), c) ensures ComesFrom(s, Return(u, v), c) {
      assert ComesFrom(s, u, c);
    }
  }

  lemma TakeItemSteady(s: State, id: int, out: int)
    requires id in s.queues && s.queues[id].items != []
    ensures Steady(s, TakeItem(s, id, out)) && TakeItem(s, id, out).running == s.running
    ensures id in TakeItem(s, id, out).queues
  {
  }

  lemma SchedulePlain(s: State)
    ensures Plain(s, Schedule(s))
  {
  }

  lemma ScheduleSteady(s: State)
    ensures Steady(s, Schedule(s))
  {
    hide Schedule, Plain, Steady;
    SchedulePlain(s);
    PlainIsSteady(s, Schedule(s));
  }

  lemma WakeFirstSteady(s: State)
    requires s.timers != []
    ensures Steady(s, WakeFirst(s)) && WakeFirst(s).running == s.running
    ensures |WakeFirst(s).timers| < |s.timers|
  {
  }

  lemma {:induction false} WakeDueSteady(s: State)
    ensures Steady(s, WakeDue(s)) && WakeDue(s).running == s.running
    decreases |s.timers|
  {
    hide WakeFirst;
    if s.timers != [] && s.timers[0].wake <= s.time {
      WakeFirstSteady(s);
      WakeDueSteady(WakeFirst(s));
      SteadyTrans(s, WakeFirst(s), WakeDue(s));
    }
  }

  lemma TickSteady(s: State)
    ensures Steady(s, DoTick(s))
  {
    hide WakeDue, Schedule;
    var s1 := s.(time := s.time + 1);
    WakeDueSteady(s1);
    ScheduleSteady(WakeDue(s1));
    SteadyTrans(s, WakeDue(s1), DoTick(s));
  }

  lemma SpawnSteady(s: State)
    requires ListsInv(s) && s.running.Some? && SpawnSafe(s) && s.pcbPool.Wf(MAX_NUM_PROCESSES)
    ensures Steady(s, DoSpawn(s))
  {
    assert s.pcbPool.free[0] in s.pcbPool.free;
  }

  lemma ParkSteady(s: State)
    requires s.running.Some?
    ensures Steady(s, Park(s))
  {
  }

  lemma ReapSteady(s: State, r: Ref, z: Ref, out: int, v: int)
    requires s.running.Some?
    ensures Steady(s, Return(Reap(s, r, z, out), v)) && Reap(s, r, z, out).running == s.running
  {
    hide Steady, Return, Reap;
    ReapOnlySteady(s, r, z, out);
    ReturnSteady(s, Reap(s, r, z, out), v);
  }

  lemma ReapOnlySteady(s: State, r: Ref, z: Ref, out: int)
    ensures Steady(s, Reap(s, r, z, out)) && Reap(s, r, z, out).running == s.running
  {
  }

  lemma WaitSteady(s: State)
    requires s.running.Some? && WaitSafe(s)
    ensures Steady(s, DoWait(s))
  {
    hide Reap, PickNext, Park, FindZombie;
    var r := s.running.value;
    var z := FindZombie(s, s.zombie, r, s.pcb[r].arg0);
    if WaitBlocks(s) {
      ParkSteady(s);
      PickNextSteady(s, Park(s), false);
    } else if z.Some? {
      ReapSteady(s, r, z.value, s.pcb[r].arg1, s.pcb[z.value].pid);
    }
  }

  lemma SleepSteady(s: State)
    requires s.running.Some?
    ensures Steady(s, DoSleep(s))
  {
    hide TimerInsert, PickNext;
    var r := s.running.value;
    if !(s.pcb[r].timer.Some? || s.timerPool.free == []) {
      PickNextSteady(s, Park(AddTimer(s, s.pcb[r].arg0)), false);
    }
  }

  lemma HandToGetterPlain(s: State, id: int, v: int)
    requires id in s.queues && s.queues[id].getters != []
    ensures Plain(s, HandToGetter(s, id, v)) && HandToGetter(s, id, v).running == s.running
  {
  }

  lemma HandToGetterSteady(s: State, id: int, v: int)
    requires id in s.queues && s.queues[id].getters != []
    ensures Steady(s, HandToGetter(s, id, v)) && HandToGetter(s, id, v).running == s.running
  {
    hide HandToGetter, Plain, Steady;
    HandToGetterPlain(s, id, v);
    PlainIsSteady(s, HandToGetter(s, id, v));
  }

  lemma PutSteady(s: State)
    requires s.running.Some? && PutSafe(s)
    ensures Steady(s, DoPut(s))
  {
    hide PickNext, HandToGetter;
    var id, v := s.pcb[s.running.value].arg0, s.pcb[s.running.value].arg1;
    if PutBlocks(s) {
      PickNextSteady(s, Joined(s, id, false), true);
    } else if id in s.queues && s.queues[id].getters != [] {
      HandToGetterSteady(s, id, v);
      ReturnSteady(s, HandToGetter(s, id, v), 0);
    }
  }

  lemma RefillPlain(s: State, id: int)
    requires id in s.queues
    ensures Plain(s, Refill(s, id)) && Refill(s, id).running == s.running
  {
  }

  lemma RefillSteady(s: State, id: int)
    requires id in s.queues
    ensures Steady(s, Refill(s, id)) && Refill(s, id).running == s.running
  {
    hide Refill, Plain, Steady;
    RefillPlain(s, id);
    PlainIsSteady(s, Refill(s, id));
  }

  lemma BlockedSteady(s: State, id: int, get: bool)
    requires s.running.Some? && id in s.queues && s.ptrPool.free != []
    ensures Steady(s, PickNext(Joined(s, id, get), true))
  {
    hide PickNext;
    PickNextSteady(s, Joined(s, id, get), true);
  }

  lemma HandFromPutterSteady(s: State, id: int, out: int)
    requires id in s.queues && s.queues[id].putters != []
    ensures Steady(s, HandFromPutter(s, id, out)) && HandFromPutter(s, id, out).running == s.running
  {
  }

  lemma GetSteady(s: State)
    requires s.running.Some? && GetSafe(s)
    ensures Steady(s, DoGet(s))
  {
    hide PickNext, Refill, TakeItem, HandFromPutter, Steady, Return;
    var id, out := s.pcb[s.running.value].arg0, s.pcb[s.running.value].arg1;
    if GetBlocks(s) {
      BlockedSteady(s, id, true);
    } else if id !in s.queues {
      RefusedSteady(s, ERESOURCENOFD);
    } else if s.queues[id].items != [] {
      TakeItemSteady(s, id, out);
      var u := Refill(TakeItem(s, id, out), id);
      RefillSteady(TakeItem(s, id, out), id);
      SteadyTrans(s, TakeItem(s, id, out), u);
      ReturnSteady(s, u, 0);
    } else {
      HandFromPutterSteady(s, id, out);
      ReturnSteady(s, HandFromPutter(s, id, out), 0);
    }
  }

  lemma RefusedSteady(s: State, v: int)
    requires s.running.Some?
    ensures Steady(s, Return(s, v))
  {
  }

  lemma OpenFoundPlain(s: State, rb: nat)
    requires s.running.Some? && rb in s.resPool.live
    requires s.desPool.free != [] ==> s.desPtrPool.free != []
    ensures Plain(s, OpenFound(s, rb))
  {
  }

  lemma OpenFoundSteady(s: State, rb: nat)
    requires s.running.Some? && rb in s.resPool.live
    requires s.desPool.free != [] ==> s.desPtrPool.free != []
    ensures Steady(s, OpenFound(s, rb))
  {
    hide OpenFound, Plain, Steady;
    OpenFoundPlain(s, rb);
    PlainIsSteady(s, OpenFound(s, rb));
  }

  lemma OpenSteady(s: State)
    requires s.running.Some? && OpenSafe(s)
    ensures Steady(s, DoOpen(s))
  {
    hide OpenFound, ResourceById;
    var p := s.pcb[s.running.value];
    var found := ResourceById(s.resPool.live, s.resList, p.arg0);
    if CreateBit(p.arg2) && found.None? {
      OpenFoundSteady(AddResource(s, p.arg0, p.arg1), s.resPool.free[0]);
    } else if !CreateBit(p.arg2) && found.Some? {
      OpenFoundSteady(s, found.value);
    }
  }

  lemma ClosePlain(s: State)
    requires s.running.Some?
    ensures Plain(s, DoClose(s))
  {
    hide DescriptorByFd, Remove, RemoveAt;
  }

  lemma CloseSteady(s: State)
    requires s.running.Some?
    ensures Steady(s, DoClose(s))
  {
    hide DoClose, Plain, Steady;
    ClosePlain(s);
    PlainIsSteady(s, DoClose(s));
  }

  lemma CreateSteady(s: State)
    requires s.running.Some?
    ensures Steady(s, DoCreate(s))
  {
  }

  lemma DeleteSteady(s: State)
    requires s.running.Some?
    ensures Steady(s, DoDelete(s))
  {
    hide GiveItems;
  }

  lemma DestroySteady(s: State)
    requires s.running.Some?
    ensures Steady(s, DoDestroy(s))
  {
    hide ResourceById, Remove;
  }

  lemma HandlerSteady(s: State, op: Op)
    requires ListsInv(s) && s.pcbPool.Wf(MAX_NUM_PROCESSES)
    requires s.running.Some? && !op.Tick? && !op.Exit? && HandlerSafe(s, op)
    ensures Steady(s, Handler(s, op))
  {
    hide Steady, Schedule, DoSpawn, DoWait, DoSleep, DoCreate, DoDelete, DoPut, DoGet, DoOpen, DoClose, DoDestroy;
    match op
    case Preempt => ScheduleSteady(s);
    case Fork => SpawnSteady(s);
    case Spawn(_, _) => SpawnSteady(s);
    case Wait(_, _) => WaitSteady(s);
    case Sleep(_) => SleepSteady(s);
    case Create(_, _) => CreateSteady(s);
    case Delete(_) => DeleteSteady(s);
    case Put(_, _) => PutSteady(s);
    case Get(_, _) => GetSteady(s);
    case Open(_, _, _) => OpenSteady(s);
    case Close(_) => CloseSteady(s);
    case Destroy(_) => DestroySteady(s);
  }

  // ---------- steps that strand nobody ----------

  /** Init has no zombie child that its saved call asks for. */
  ghost predicate NothingToReap(s: State) {
    forall z: Ref :: z in s.zombie ==> !Awaited(s, z, s.initPcb, s.pcb[s.initPcb].arg0)
  }

  lemma SteadyStrandsNobody(s: State, s': State)
    requires Steady(s, s') && !Stranded(s)
    requires s.running == Some(s.initPcb) && s.initPcb in s'.waiting ==>
      s.pcb[s.initPcb].syscallNum != CALL_WAIT || NothingToReap(s)
    ensures !Stranded(s')
  {
    forall z: Ref | z in s'.zombie
      ensures z in s.zombie
      ensures Awaited(s', z, s'.initPcb, s'.pcb[s'.initPcb].arg0) <==> Awaited(s, z, s.initPcb, s.pcb[s.initPcb].arg0)
    {
      assert SameOrigin(s.pcb[z], s'.pcb[z]);
    }
    assert SameSavedCall(s.pcb[s.initPcb], s'.pcb[s.initPcb]);
  }

  lemma BlockedFoundNothing(s: State)
    requires s.running == Some(s.initPcb) && WaitSafe(s) && s.initPcb !in s.waiting
    requires s.initPcb in DoWait(s).waiting
    ensures NothingToReap(s)
  {
    hide Reap, PickNext, Park;
    var r := s.running.value;
    var z := FindZombie(s, s.zombie, r, s.pcb[r].arg0);
    if z.Some? { ReapWaiting(s, r, z.value, s.pcb[r].arg1, s.pcb[z.value].pid); }
  }

  lemma ReapWaiting(s: State, r: Ref, z: Ref, out: int, v: int)
    requires s.running.Some?
    ensures Return(Reap(s, r, z, out), v).waiting == s.waiting
    ensures Reap(s, r, z, out).running == s.running
  {
  }

  lemma CallStrandsNobody(s: State, op: Op)
    requires ListsInv(s) && s.pcbPool.Wf(MAX_NUM_PROCESSES)
    requires s.running.Some? && !op.Tick? && !op.Exit? && HandlerSafe(s, op)
    requires s.pcb[s.running.value].syscallNum == Number(op) && !Stranded(s)
    ensures !Stranded(Handler(s, op))
  {
    hide Steady, NothingToReap, Stranded;
    HandlerSteady(s, op);
    if op.Wait? && s.running == Some(s.initPcb) {
      hide DoWait, WaitSafe;
      if s.initPcb in DoWait(s).waiting { BlockedFoundNothing(s); }
      SteadyStrandsNobody(s, DoWait(s));
    } else {
      hide Handler, HandlerSafe;
      SteadyStrandsNobody(s, Handler(s, op));
    }
  }

  lemma TickStrandsNobody(s: State)
    requires ListsInv(s) && !Stranded(s)
    ensures !Stranded(DoTick(s))
  {
    hide DoTick, Stranded, Steady, NothingToReap;
    TickSteady(s);
    TickBlocksNobody(s);
    SteadyStrandsNobody(s, DoTick(s));
  }

  lemma TickBlocksNobody(s: State)
    ensures forall p: Ref :: p in DoTick(s).waiting ==> p in s.waiting
  {
    hide WakeDue;
    WakeDueWaiting(s.(time := s.time + 1));
  }

  lemma {:induction false} WakeDueWaiting(s: State)
    ensures forall p: Ref :: p in WakeDue(s).waiting ==> p in s.waiting
    decreases |s.timers|
  {
    if s.timers != [] && s.timers[0].wake <= s.time { WakeDueWaiting(WakeFirst(s)); }
  }

  // ---------- exit ----------

  /** An exit by init, which has no children, wakes nobody and leaves init no zombie to wait for. */
  lemma InitExit(s: State)
    requires CoreInv(s) && s.running == Some(s.initPcb) && ExitSafe(s)
    ensures s.initPcb !in DoExit(s).waiting
  {
    hide CoreInv, LoopEnds, Adopt, PickNext;
    ExitSafeExactly(s);
    AdoptBystander(s);
    RunningIsFree(s);
    var r := s.running.value;
    NotifyWaiting(Bury(Adopt(s), r), r);
    PickNextWaiting(NotifyParent(Bury(Adopt(s), r), r));
  }

  lemma RunningIsFree(s: State)
    requires CoreInv(s) && s.running.Some?
    ensures s.running.value !in s.waiting
  {
  }

  lemma NotifyWaiting(s: State, r: Ref)
    ensures forall p: Ref :: p in NotifyParent(s, r).waiting ==> p in s.waiting
  {
  }

  lemma PickNextWaiting(s: State)
    ensures PickNext(s, true).waiting == s.waiting && PickNext(s, true).initPcb == s.initPcb
  {
  }

  lemma ExitOfOthers(s: State)
    requires CoreInv(s) && s.running.Some? && s.running.value != s.initPcb
    requires !BlockedIn(s, s.initPcb, CALL_WAIT)
    ensures ExitSafe(s) && !Stranded(DoExit(s))
  {
    hide CoreInv, Adopt, DoExit, LoopEnds;
    BuriedIs(s);
    DoExitIsBuried(s);
  }

  /** A step that is not an exit with init waiting strands nobody. */
  lemma ExitStrandsNobody(s: State)
    requires CoreInv(s) && s.running.Some? && ExitSafe(s) && !BlockedIn(s, s.initPcb, CALL_WAIT)
    ensures !Stranded(DoExit(s))
  {
    hide CoreInv, DoExit, LoopEnds;
    if s.running.value == s.initPcb {
      InitExit(s);
      ExitInit(s);
    } else {
      ExitOfOthers(s);
    }
  }

  lemma ExitInit(s: State)
    requires s.running.Some? && ExitSafe(s)
    ensures DoExit(s).initPcb == s.initPcb
  {
    hide Adopt, PickNext;
    AdoptBystander(s);
    PickNextWaiting(NotifyParent(Bury(Adopt(s), s.running.value), s.running.value));
  }

  // ---------- exactly when ----------

  /** An exit while init waits, by a process that leaves init a zombie which init asked for,
      and that is not itself the child that init is woken for. */
  ghost predicate StrandingExit(s: State, op: Op) {
    && op.Exit? && s.running.Some? && BlockedIn(s, s.initPcb, CALL_WAIT)
    && LeavesZombie(s, s.running.value)
    && !(ParentAwaits(s, s.running.value) && s.pcb[s.running.value].parent == Some(s.initPcb))
  }

  lemma TrapStranded(s: State, op: Op)
    requires s.running.Some? && !op.Tick? && s.running.value !in s.waiting
    ensures var t := Trap(s, op);
      && t.pcb[t.running.value].syscallNum == Number(op)
      && (BlockedIn(t, s.initPcb, CALL_WAIT) <==> BlockedIn(s, s.initPcb, CALL_WAIT))
      && (Stranded(t) <==> Stranded(s))
  {
    var t := Trap(s, op);
    assert forall z: Ref, x: Ref, pid :: Awaited(t, z, x, pid) == Awaited(s, z, x, pid);
    assert s.initPcb in s.waiting ==> t.pcb[s.initPcb] == s.pcb[s.initPcb];
  }

  lemma CoreLists(s: State)
    requires CoreInv(s)
    ensures ListsInv(s) && s.pcbPool.Wf(MAX_NUM_PROCESSES)
  {
  }

  lemma HistoryStrands(s: State, h: map<int, Chan>)
    ensures Stranded(s.(chans := h)) == Stranded(s)
  {
    HistoryStranded(s, h);
  }

  /** In every state in which init is not stranded, a step strands it if and only if it is a
      stranding exit. */
  lemma StrandsExactly(s: State, op: Op)
    requires Inv(s) && Safe(s, op) && !Stranded(s)
    ensures Stranded(Step(s, op)) <==> StrandingExit(s, op)
  {
    hide CoreInv, ListsInv, Stranded, LeavesZombie, ParentAwaits, DoTick, Handler, HandlerSafe, LoopEnds;
    CoreLists(s);
    if op.Tick? {
      TickStrandsNobody(s);
    } else if op.Exit? && BlockedIn(s, s.initPcb, CALL_WAIT) {
      ExitStepStrandsExactly(s, op.value);
    } else {
      var t := Trap(s, op);
      RunningIsFree(s);
      TrapStranded(s, op);
      TrapKeeps(s, op);
      CoreLists(t);
      if op.Exit? { ExitCallStrandsNobody(t, op); } else { CallStrandsNobody(t, op); }
      HistoryStrands(Handler(t, op), Observe(s, op, Handler(t, op)));
    }
  }

  lemma ExitCallStrandsNobody(s: State, op: Op)
    requires CoreInv(s) && s.running.Some? && op.Exit? && HandlerSafe(s, op) && !BlockedIn(s, s.initPcb, CALL_WAIT)
    ensures !Stranded(Handler(s, op))
  {
    hide CoreInv, DoExit, Stranded;
    ExitStrandsNobody(s);
  }

  // ---------- whole runs ----------

  ghost predicate StrandedDuring(s: State, ops: seq<Op>)
    requires RunSafe(s, ops)
    decreases |ops|
  {
    Stranded(s) || (ops != [] && StrandedDuring(Step(s, ops[0]), ops[1..]))
  }

  ghost predicate StrandingExitDuring(s: State, ops: seq<Op>)
    requires RunSafe(s, ops)
    decreases |ops|
  {
    ops != [] && (StrandingExit(s, ops[0]) || StrandingExitDuring(Step(s, ops[0]), ops[1..]))
  }

  /** Init is stranded at some point of a run if and only if some step of it is a stranding
      exit; in particular a run without one ends with init not stranded. */
  lemma {:induction false} StrandedRunExactly(s: State, ops: seq<Op>)
    requires Inv(s) && RunSafe(s, ops) && !Stranded(s)
    ensures StrandedDuring(s, ops) <==> StrandingExitDuring(s, ops)
    ensures Stranded(Run(s, ops)) ==> StrandingExitDuring(s, ops)
    decreases |ops|
  {
    hide Inv, Step, Safe, Stranded, StrandingExit;
    if ops != [] {
      var s1 := Step(s, ops[0]);
      StepKeeps(s, ops[0]);
      StrandsExactly(s, ops[0]);
      if !Stranded(s1) { StrandedRunExactly(s1, ops[1..]); } else { StrandedNow(s1, ops[1..]); }
    }
  }

  lemma StrandedNow(s: State, ops: seq<Op>)
    requires RunSafe(s, ops) && Stranded(s)
    ensures StrandedDuring(s, ops)
  {
  }
}
