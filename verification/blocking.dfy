/** The running process blocks: each way to join the waiting list keeps the invariants. */
module Blocking {
  import opened Wrappers
  import opened KernelState
  import opened Syscalls
  import opened Invariants
  import opened Frames
  import opened Links
  import opened Scheduling

  /** The running process `r` has joined the waiting list. */
  ghost predicate Joins(s: State, s': State, r: Ref) {
    && s.running == Some(r) && s'.waiting == s.waiting + [r]
    && SameFamily(s, s') && KeepsChildLinks(s, s') && SameFiles(s, s')
    && s'.zombie == s.zombie
    && SameCall(s.pcb[r], s'.pcb[r])
    && forall x: Ref :: x in s.waiting ==> SameCall(s.pcb[x], s'.pcb[x])
  }

  /** `s1` is `s` with an entry made somewhere for the process that is about to block. */
  ghost predicate Entered(s: State, s1: State) {
    && s1.pcb == s.pcb && s1.pcbPool == s.pcbPool && s1.running == s.running
    && s1.initPcb == s.initPcb && s1.lastPid == s.lastPid
    && s1.ready == s.ready && s1.waiting == s.waiting && s1.zombie == s.zombie
    && s1.resPool == s.resPool && s1.resList == s.resList
    && s1.desPool == s.desPool && s1.desPtrPool == s.desPtrPool
    && KeepsChildLinks(s, s1)
  }

  lemma ParkJoins(s: State, s1: State)
    requires ListsInv(s) && s.running.Some? && Entered(s, s1)
    ensures Joins(s, Park(s1), s.running.value) && ListsInv(Park(s1))
  {
    assert ListsInv(s1);
    ParkLists(s1);
  }

  lemma JoinsFamily(s: State, s': State, r: Ref)
    requires PidsInv(s) && TreeInv(s) && Joins(s, s', r)
    ensures PidsInv(s') && TreeInv(s')
  {
    FrameFamily(s, s');
  }

  lemma JoinsWakeUp(s: State, s': State, r: Ref)
    requires NoLostWakeUp(s) && Joins(s, s', r)
    requires s.pcb[r].syscallNum == CALL_WAIT ==>
      forall z: Ref :: z in s.zombie ==> !Awaited(s, z, r, s.pcb[r].arg0)
    ensures NoLostWakeUp(s')
  {
  }

  lemma JoinsFiles(s: State, s': State, r: Ref)
    requires ResourcesInv(s) && FdsInv(s) && Joins(s, s', r)
    ensures ResourcesInv(s') && FdsInv(s')
  {
  }

  ghost predicate HasReason(s: State, r: Ref) {
    var call := s.pcb[r].syscallNum;
    || call == CALL_WAIT
    || (call == CALL_SLEEP && HasTimer(s.timers, r))
    || (call == CALL_GET && WaitsToGet(s, r))
    || (call == CALL_PUT && WaitsToPut(s, r))
  }

  lemma JoinsWaits(s: State, s': State, r: Ref)
    requires WaitsInv(s) && Joins(s, s', r) && HasReason(s', r)
    requires forall x: Ref :: HasTimer(s.timers, x) ==> HasTimer(s'.timers, x)
    requires forall id, x: Ref :: id in s.queues && HasRef(s.queues[id].getters, x) ==>
               id in s'.queues && HasRef(s'.queues[id].getters, x)
    requires forall id, x: Ref :: id in s.queues && HasRef(s.queues[id].putters, x) ==>
               id in s'.queues && HasRef(s'.queues[id].putters, x)
    ensures WaitsInv(s')
  {
  }

  lemma JoinsTimers(s: State, s': State, r: Ref)
    requires TimersInv(s) && Joins(s, s', r) && s'.timers == s.timers && s'.timerPool == s.timerPool
    ensures TimersInv(s')
  {
  }

  lemma JoinsWaiters(s: State, s': State, r: Ref)
    requires WaitersInv(s) && PtrInv(s) && Joins(s, s', r)
    requires s'.queues == s.queues && s'.ptrPool == s.ptrPool
    ensures WaitersInv(s') && PtrInv(s')
  {
  }

  // ---------- sleep ----------

  lemma SleepJoins(s: State, c: int)
    requires ListsInv(s) && s.running.Some? && s.timerPool.free != []
    ensures Joins(s, Park(AddTimer(s, c)), s.running.value)
    ensures ListsInv(Park(AddTimer(s, c)))
  {
    ParkJoins(s, AddTimer(s, c));
  }

  lemma NotSleeping(s: State)
    requires ListsInv(s) && TimersInv(s) && s.running.Some?
    ensures !HasTimer(s.timers, s.running.value)
  {
  }

  /** The timers themselves, apart from the processes they belong to. */
  lemma SleepAddsTimer(s: State, s': State, t: Timer)
    requires TimersInv(s) && s.timerPool.Wf(MAX_NUM_PROCESSES)
    requires !HasTimer(s.timers, t.pcb)
    requires BlockedIn(s', t.pcb, CALL_SLEEP)
    requires forall r: Ref :: BlockedIn(s, r, CALL_SLEEP) ==> BlockedIn(s', r, CALL_SLEEP)
    requires s.timerPool.free != [] && t.block == s.timerPool.free[0]
    requires s'.timers == TimerInsert(s.timers, t) && s'.timerPool == s.timerPool.Take(t.pcb)
    ensures TimersInv(s')
    ensures HasTimer(s'.timers, t.pcb)
    ensures forall r: Ref :: HasTimer(s.timers, r) ==> HasTimer(s'.timers, r)
  {
    hide Sorted, UniqueSleepers, HasTimer, OwnedByTimer, TimerInsert;
    TimerJoinsInOrder(s.timers, t);
    TimerJoins(s.timers, t);
    assert t.block in s.timerPool.free;
  }

  lemma SleepWaits(s: State, s': State, t: Timer)
    requires ListsInv(s) && WaitsInv(s) && TimersInv(s) && s.timerPool.Wf(MAX_NUM_PROCESSES)
    requires Joins(s, s', t.pcb) && s.pcb[t.pcb].syscallNum == CALL_SLEEP && s'.queues == s.queues
    requires s.timerPool.free != [] && t.block == s.timerPool.free[0]
    requires s'.timers == TimerInsert(s.timers, t) && s'.timerPool == s.timerPool.Take(t.pcb)
    ensures WaitsInv(s') && TimersInv(s')
  {
    NotSleeping(s);
    SleepAddsTimer(s, s', t);
    JoinsWaits(s, s', t.pcb);
  }

  lemma SleepReason(s: State, c: int)
    requires ListsInv(s) && WaitsInv(s) && TimersInv(s) && s.timerPool.Wf(MAX_NUM_PROCESSES)
    requires s.running.Some? && s.timerPool.free != []
    requires s.pcb[s.running.value].syscallNum == CALL_SLEEP
    ensures WaitsInv(Park(AddTimer(s, c))) && TimersInv(Park(AddTimer(s, c)))
  {
    SleepJoins(s, c);
    SleepWaits(s, Park(AddTimer(s, c)), Timer(s.timerPool.free[0], s.time + c, s.running.value));
  }

  lemma SleepKeeps(s: State, c: int)
    requires CoreInv(s) && s.running.Some? && s.timerPool.free != []
    requires s.pcb[s.running.value].syscallNum == CALL_SLEEP
    ensures CoreInv(Park(AddTimer(s, c)))
  {
    var r := s.running.value;
    var s' := Park(AddTimer(s, c));
    SleepJoins(s, c);
    SleepReason(s, c);
    JoinsFamily(s, s', r);
    JoinsWakeUp(s, s', r);
    JoinsWaiters(s, s', r);
    JoinsFiles(s, s', r);
    s.timerPool.TakeKeeps(r, MAX_NUM_PROCESSES);
  }

  // ---------- wait ----------

  lemma WaitJoins(s: State)
    requires ListsInv(s) && s.running.Some?
    ensures Joins(s, Park(s), s.running.value) && ListsInv(Park(s))
  {
    ParkJoins(s, s);
  }

  lemma WaitKeeps(s: State)
    requires CoreInv(s) && s.running.Some?
    requires s.pcb[s.running.value].syscallNum == CALL_WAIT
    requires forall z: Ref :: z in s.zombie ==> !Awaited(s, z, s.running.value, s.pcb[s.running.value].arg0)
    ensures CoreInv(Park(s))
  {
    var r := s.running.value;
    var s' := Park(s);
    WaitJoins(s);
    JoinsFamily(s, s', r);
    JoinsWakeUp(s, s', r);
    JoinsFiles(s, s', r);
    JoinsWaiters(s, s', r);
    JoinsTimers(s, s', r);
    JoinsWaits(s, s', r);
  }

  // ---------- put and get ----------

  /** The running process has joined queue `id` behind its getters or behind its putters. */
  ghost predicate JoinsQueue(s: State, s': State, id: int, get: bool) {
    && s.running.Some? && id in s.queues && s.ptrPool.free != []
    && s.pcb[s.running.value].syscallNum == (if get then CALL_GET else CALL_PUT)
    && s.pcb[s.running.value].arg0 == id
    && s'.ptrPool == s.ptrPool.Take(WaiterOf(s.running.value))
    && var q := s.queues[id];
       var l := Link(s.ptrPool.free[0], s.running.value);
       s'.queues == s.queues[id := if get then q.(getters := q.getters + [l]) else q.(putters := q.putters + [l])]
  }

  function Joined(s: State, id: int, get: bool): State
    requires s.running.Some? && id in s.queues && s.ptrPool.free != []
  {
    Park(if get then JoinGetters(s, id) else JoinPutters(s, id))
  }

  lemma QueueJoins(s: State, id: int, get: bool)
    requires ListsInv(s) && s.running.Some? && id in s.queues && s.ptrPool.Wf(MAX_NUM_PROCESSES)
    requires s.ptrPool.free != []
    ensures ListsInv(Joined(s, id, get))
    ensures Joins(s, Joined(s, id, get), s.running.value)
  {
    assert s.ptrPool.free[0] in s.ptrPool.free;
    ParkJoins(s, if get then JoinGetters(s, id) else JoinPutters(s, id));
  }

  lemma NotInQueue(s: State, id: int)
    requires ListsInv(s) && WaitersInv(s) && s.running.Some? && id in s.queues
    ensures !HasRef(s.queues[id].getters, s.running.value)
    ensures !HasRef(s.queues[id].putters, s.running.value)
  {
  }

  lemma QueueWaitersKept(s: State, s': State, id: int, get: bool)
    requires ListsInv(s) && WaitersInv(s) && s.ptrPool.Wf(MAX_NUM_PROCESSES)
    requires JoinsQueue(s, s', id, get) && Joins(s, s', s.running.value)
    ensures WaitersInv(s')
  {
    var r := s.running.value;
    var q := s.queues[id];
    var l := Link(s.ptrPool.free[0], r);
    assert l.block in s.ptrPool.free;
    NotInQueue(s, id);
    if get { LinkJoins(q.getters, l); } else { LinkJoins(q.putters, l); }
    forall i | i in s'.queues
      ensures WaitersOk(s', s'.queues[i].getters, i, CALL_GET)
      ensures WaitersOk(s', s'.queues[i].putters, i, CALL_PUT)
    {
      assert WaitersOk(s, s.queues[i].getters, i, CALL_GET);
      assert WaitersOk(s, s.queues[i].putters, i, CALL_PUT);
    }
  }

  lemma QueueReason(s: State, s': State, id: int, get: bool)
    requires ListsInv(s) && WaitersInv(s) && WaitsInv(s)
    requires JoinsQueue(s, s', id, get) && Joins(s, s', s.running.value) && s'.timers == s.timers
    ensures WaitsInv(s')
  {
    var r := s.running.value;
    var q := s.queues[id];
    var l := Link(s.ptrPool.free[0], r);
    NotInQueue(s, id);
    if get { LinkJoins(q.getters, l); } else { LinkJoins(q.putters, l); }
    JoinsWaits(s, s', r);
  }

  lemma QueuePtrs(s: State, s': State, id: int, get: bool)
    requires PtrInv(s) && ListsInv(s)
    requires JoinsQueue(s, s', id, get) && Joins(s, s', s.running.value)
    ensures PtrInv(s')
  {
    forall b | b in s'.ptrPool.live
      ensures Owned(s', b, s'.ptrPool.live[b])
    {
      if b != s.ptrPool.free[0] {
        assert Owned(s, b, s.ptrPool.live[b]);
      }
    }
  }

  lemma QueueData(s: State, s': State, id: int, get: bool)
    requires QueuesInv(s) && StorageInv(s)
    requires JoinsQueue(s, s', id, get) && s'.bqPool == s.bqPool && s'.itemPool == s.itemPool
    requires if get then s.queues[id].items == [] && s.queues[id].putters == []
             else s.queues[id].getters == [] && s.queues[id].size >= s.queues[id].capacity
    ensures QueuesInv(s') && StorageInv(s')
  {
  }

  lemma QueueProc(s: State, id: int, get: bool)
    requires ProcInv(s) && s.running.Some? && id in s.queues && s.ptrPool.Wf(MAX_NUM_PROCESSES)
    requires s.ptrPool.free != []
    requires s.pcb[s.running.value].syscallNum == (if get then CALL_GET else CALL_PUT)
    requires s.pcb[s.running.value].arg0 == id
    ensures ProcInv(Joined(s, id, get))
  {
    var r := s.running.value;
    var s' := Joined(s, id, get);
    QueueJoins(s, id, get);
    JoinsFamily(s, s', r);
    JoinsWakeUp(s, s', r);
    JoinsTimers(s, s', r);
    QueueReason(s, s', id, get);
    QueueWaitersKept(s, s', id, get);
    QueuePtrs(s, s', id, get);
  }

  lemma QueueKeeps(s: State, id: int, get: bool)
    requires CoreInv(s) && s.running.Some? && id in s.queues && s.ptrPool.free != []
    requires s.pcb[s.running.value].syscallNum == (if get then CALL_GET else CALL_PUT)
    requires s.pcb[s.running.value].arg0 == id
    requires if get then s.queues[id].items == [] && s.queues[id].putters == []
             else s.queues[id].getters == [] && s.queues[id].size >= s.queues[id].capacity
    ensures CoreInv(Joined(s, id, get))
  {
    var r := s.running.value;
    var s' := Joined(s, id, get);
    QueueJoins(s, id, get);
    QueueProc(s, id, get);
    JoinsFiles(s, s', r);
    QueueData(s, s', id, get);
    s.ptrPool.TakeKeeps(WaiterOf(r), MAX_NUM_PROCESSES);
  }
}
