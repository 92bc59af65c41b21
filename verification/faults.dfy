/** Exactly when a step goes wrong: the kernel checks few of its allocations and list heads,
    and this is what is left for its users to respect. */
module Faults {
  import opened Wrappers
  import opened KernelState
  import opened Syscalls
  import opened Invariants
  import opened ExitLoop
  import opened Counting

  /** Every block of the PCBPtr pool is taken. */
  ghost predicate LinksExhausted(s: State) {
    |s.pcbPool.live| - 1 + |QueueWaiters(s)| == MAX_NUM_PROCESSES
  }

  /** `r` has a zombie child that a wait for `pid` would reap. */
  ghost predicate HasAwaitedZombie(s: State, r: Ref, pid: int) {
    exists z: Ref :: z in s.zombie && Awaited(s, z, r, pid)
  }

  ghost predicate HasResource(s: State, id: int) {
    exists b :: b in s.resPool.live && s.resPool.live[b].id == id
  }

  /** The condition, on the state before the call, under which the call is sound. */
  ghost predicate Sound(s: State, op: Op)
    requires s.running.Some?
  {
    var r := s.running.value;
    match op
    case Fork => |s.pcbPool.live| < MAX_NUM_PROCESSES && !LinksExhausted(s)
    case Spawn(_, _) => |s.pcbPool.live| < MAX_NUM_PROCESSES && !LinksExhausted(s)
    case Wait(pid, _) => s.pcb[r].children == [] || HasAwaitedZombie(s, r, pid) || s.ready != []
    case Exit(_) => r != s.initPcb || s.pcb[r].children == []
    case Put(id, _) =>
      !(LinksExhausted(s) && id in s.queues && s.queues[id].getters == []
        && |s.queues[id].items| == s.queues[id].capacity)
    case Get(id, _) => !(LinksExhausted(s) && id in s.queues && s.queues[id].items == [])
    case Open(id, _, mode) =>
      !(CreateBit(mode) && !HasResource(s, id) && |s.resPool.live| == MAX_NUM_RESOURCES)
    case _ => true
  }

  lemma PoolSizes(s: State)
    requires Inv(s)
    ensures s.pcbPool.free == [] <==> |s.pcbPool.live| == MAX_NUM_PROCESSES
    ensures s.resPool.free == [] <==> |s.resPool.live| == MAX_NUM_RESOURCES
    ensures s.desPool.free == s.desPtrPool.free
    ensures |s.pcbPool.live| <= MAX_NUM_PROCESSES
    ensures forall b :: b in s.resList <==> b in s.resPool.live
    ensures forall id :: id in s.queues ==> QueueOk(s.queues[id])
  {
  }

  lemma RegisteredById(s: State, id: int)
    requires forall b :: b in s.resList <==> b in s.resPool.live
    ensures ResourceById(s.resPool.live, s.resList, id).Some? <==> HasResource(s, id)
  {
  }

  /** A call neither dereferences a null pointer nor loops for ever if and only if the caller
      keeps to `Sound`. Ticks are always safe. */
  lemma SafeExactly(s: State, op: Op)
    requires Inv(s) && s.running.Some? && !op.Tick?
    ensures Safe(s, op) <==> Sound(s, op)
  {
    hide Inv, QueueWaiters;
    PoolSizes(s);
    LinksRunOutExactly(s);
    match op
    case Wait(pid, _) => WaitSafeExactly(s, op);
    case Exit(_) => ExitSafeExactly(Trap(s, op));
    case Open(id, _, _) => RegisteredById(s, id);
    case _ =>
  }

  lemma WaitSafeExactly(s: State, op: Op)
    requires s.running.Some? && op.Wait?
    ensures Safe(s, op) <==> Sound(s, op)
  {
    var t := Trap(s, op);
    var r := s.running.value;
    assert forall z: Ref :: Awaited(t, z, r, op.pid) == Awaited(s, z, r, op.pid);
  }

  /** With at most half the PCB blocks in use, put, get, fork and spawn never fault. */
  lemma HalfLoadNeverFaults(s: State, op: Op)
    requires Inv(s) && s.running.Some? && |s.pcbPool.live| <= MAX_NUM_PROCESSES / 2
    requires op.Put? || op.Get? || op.Fork? || op.Spawn?
    ensures Safe(s, op)
  {
    hide Inv, QueueWaiters, HandlerSafe;
    SafeExactly(s, op);
    HalfLoadIsSafe(s);
    LinksRunOutExactly(s);
  }
}
