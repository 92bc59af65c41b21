/** Steps that are not put or get leave the contents of every queue alone. */
module Bystanders {
  import opened Wrappers
  import opened Seqs
  import opened KernelState
  import opened Syscalls
  import opened Invariants
  import opened Frames

  /** Queues, history and the requests of blocked processes are as before. */
  ghost predicate Bystander(s: State, s': State) {
    && s'.queues == s.queues && s'.chans == s.chans
    && forall r: Ref :: r in s.waiting ==> SameRequest(s.pcb[r], s'.pcb[r])
  }

  /** Nobody is scheduled, blocked or woken. */
  ghost predicate SameLists(s: State, s': State) {
    && s'.running == s.running && s'.ready == s.ready && s'.waiting == s.waiting && s'.zombie == s.zombie
    && s'.timers == s.timers && s'.time == s.time
  }

  lemma TrapBystander(s: State, op: Op)
    requires ListsInv(s) && s.running.Some? && !op.Tick?
    ensures Bystander(s, Trap(s, op)) && Trap(s, op).mem == s.mem
  {
  }

  lemma ScheduleBystander(s: State)
    ensures Bystander(s, Schedule(s)) && Schedule(s).mem == s.mem
  {
  }

  lemma SpawnBystander(s: State)
    requires ListsInv(s) && s.running.Some? && SpawnSafe(s) && s.pcbPool.Wf(MAX_NUM_PROCESSES)
    ensures Bystander(s, DoSpawn(s)) && DoSpawn(s).mem == s.mem
  {
    assert s.pcbPool.free[0] in s.pcbPool.free;
  }

  lemma ReapBystander(s: State, r: Ref, z: Ref, out: int)
    ensures Bystander(s, Reap(s, r, z, out)) && Reap(s, r, z, out).running == s.running
  {
  }

  lemma WaitBystander(s: State)
    requires ListsInv(s) && s.running.Some? && WaitSafe(s)
    ensures Bystander(s, DoWait(s))
  {
    hide Reap;
    var r := s.running.value;
    var z := FindZombie(s, s.zombie, r, s.pcb[r].arg0);
    if z.Some? {
      ReapBystander(s, r, z.value, s.pcb[r].arg1);
    }
  }

  lemma {:induction false} ReparentAllBystander(s: State, r: Ref)
    requires r != s.initPcb
    ensures var s' := ReparentAll(s, r);
      && s' == s.(pcb := s'.pcb)
      && forall x: Ref :: SameRequest(s.pcb[x], s'.pcb[x])
    decreases |s.pcb[r].children|
  {
    if s.pcb[r].children != [] {
      ReparentAllBystander(ReparentOne(s, r), r);
    }
  }

  lemma AdoptBystander(s: State)
    requires s.running.Some? && ExitSafe(s)
    ensures var s' := Adopt(s);
      && s' == s.(pcb := s'.pcb)
      && forall x: Ref :: SameRequest(s.pcb[x], s'.pcb[x])
  {
    var r := s.running.value;
    if r != s.initPcb {
      ReparentAllBystander(SetPcb(s, r, s.pcb[r].(returnValue := s.pcb[r].arg0)), r);
    }
  }

  lemma ExitBystander(s: State)
    requires s.running.Some? && ExitSafe(s)
    ensures Bystander(s, DoExit(s)) && DoExit(s).mem == s.mem
  {
    hide Adopt;
    AdoptBystander(s);
  }

  lemma SleepBystander(s: State)
    requires s.running.Some?
    ensures Bystander(s, DoSleep(s)) && DoSleep(s).mem == s.mem
  {
    hide TimerInsert;
  }

  lemma {:induction false} WakeDueBystander(s: State)
    ensures var s' := WakeDue(s);
      && s'.queues == s.queues && s'.chans == s.chans && s'.mem == s.mem
      && forall x: Ref :: SameRequest(s.pcb[x], s'.pcb[x])
    decreases |s.timers|
  {
    if s.timers != [] && s.timers[0].wake <= s.time {
      WakeDueBystander(WakeFirst(s));
    }
  }

  lemma TickBystander(s: State)
    ensures Bystander(s, DoTick(s)) && DoTick(s).mem == s.mem
  {
    hide WakeDue;
    WakeDueBystander(s.(time := s.time + 1));
  }

  lemma OpenFoundBystander(s: State, rb: nat)
    requires s.running.Some? && rb in s.resPool.live
    requires s.desPool.free != [] ==> s.desPtrPool.free != []
    ensures Bystander(s, OpenFound(s, rb)) && OpenFound(s, rb).mem == s.mem
    ensures SameLists(s, OpenFound(s, rb))
  {
  }

  lemma OpenBystander(s: State)
    requires s.running.Some? && OpenSafe(s)
    ensures Bystander(s, DoOpen(s)) && DoOpen(s).mem == s.mem
    ensures SameLists(s, DoOpen(s))
  {
    hide OpenFound;
    var p := s.pcb[s.running.value];
    var found := ResourceById(s.resPool.live, s.resList, p.arg0);
    if CreateBit(p.arg2) && found.None? {
      OpenFoundBystander(AddResource(s, p.arg0, p.arg1), s.resPool.free[0]);
    } else if !CreateBit(p.arg2) && found.Some? {
      OpenFoundBystander(s, found.value);
    }
  }

  lemma CloseBystander(s: State)
    requires s.running.Some?
    ensures Bystander(s, DoClose(s)) && DoClose(s).mem == s.mem
    ensures SameLists(s, DoClose(s))
  {
    hide Remove, RemoveAt, DescriptorByFd;
  }

  lemma DestroyBystander(s: State)
    requires s.running.Some?
    ensures Bystander(s, DoDestroy(s)) && DoDestroy(s).mem == s.mem
    ensures SameLists(s, DoDestroy(s))
  {
  }

  predicate QueueCall(op: Op) {
    op.Put? || op.Get? || op.Create? || op.Delete?
  }

  lemma HandlerBystander(s: State, op: Op)
    requires ListsInv(s) && s.pcbPool.Wf(MAX_NUM_PROCESSES)
    requires s.running.Some? && !op.Tick? && !QueueCall(op) && HandlerSafe(s, op)
    ensures Bystander(s, Handler(s, op))
    ensures !op.Wait? ==> Handler(s, op).mem == s.mem
  {
    match op
    case Preempt => ScheduleBystander(s);
    case Fork => SpawnBystander(s);
    case Spawn(_, _) => SpawnBystander(s);
    case Wait(_, _) => WaitBystander(s);
    case Exit(_) => ExitBystander(s);
    case Sleep(_) => SleepBystander(s);
    case Open(_, _, _) => OpenBystander(s);
    case Close(_) => CloseBystander(s);
    case Destroy(_) => DestroyBystander(s);
  }
}
