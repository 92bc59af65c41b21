/** The kernel as it is written: global lists and pools updated in place by the system calls
    and by the timer interrupt. Each method is proved to take the step that `Syscalls`
    specifies; the methods below DisastrOsSyscall and TimerInterrupt may leave `chans`,
    which only records what happened, out of date. */
module Kernels {
  import opened Wrappers
  import opened Seqs
  import opened Pools
  import opened KernelState
  import opened Syscalls
  import opened Invariants
  import opened ExitLoop
  import opened Registries
  import opened Scheduling
  import opened Waking
  import opened Family
  import opened Files
  import opened Preservation
  import opened Steps

  class Kernel {
    const pcb: array<Pcb>
    var pcbPool: Pool<Ref, ()>
    var ptrPool: Pool<nat, Owner>
    var timerPool: Pool<nat, Ref>
    var bqPool: Pool<nat, int>
    var itemPool: Pool<nat, int>
    var initPcb: Ref
    var running: Option<Ref>
    var lastPid: int
    var ready: seq<Ref>
    var waiting: seq<Ref>
    var zombie: seq<Ref>
    var timers: seq<Timer>
    var time: int
    var registry: seq<Queue>
    var mem: map<int, int>
    var resPool: Pool<nat, Resource>
    var resList: seq<nat>
    var desPool: Pool<nat, Descriptor>
    var desPtrPool: Pool<nat, nat>
    ghost var chans: map<int, Chan>

    ghost predicate Rep()
      reads this
    {
      pcb.Length == MAX_NUM_PROCESSES && UniqueIds(registry)
    }

    /** The state these fields stand for. */
    ghost function St(): State
      requires Rep()
      reads this, pcb
    {
      State(pcb[..], pcbPool, ptrPool, timerPool, bqPool, itemPool, initPcb, running, lastPid,
            ready, waiting, zombie, timers, time, Registered(registry), mem,
            resPool, resList, desPool, desPtrPool, chans)
    }

    ghost predicate Valid()
      reads this, pcb
    {
      Rep() && Inv(St())
    }

    /** `p` is in none of the lists that run through the link inside a PCB, so List_insert
        does not refuse it. */
    ghost predicate Unlisted(p: Ref)
      reads this
    {
      p !in ready && p !in waiting && p !in zombie
    }

    // ---------- lists of processes ----------

    method Store(r: Ref, p: Pcb)
      requires Rep()
      modifies pcb
      ensures pcb[..] == old(pcb[..])[r := p]
      ensures St() == SetPcb(old(St()), r, p)
    {
      pcb[r] := p;
      assert pcb[..] == old(pcb[..])[r := p];
    }

    method ReturnValue(v: int)
      requires Rep() && running.Some?
      modifies pcb
      ensures St() == Return(old(St()), v)
    {
      Store(running.value, pcb[running.value].(retval := v));
    }

    method AppendReady(p: Ref)
      requires Rep() && Unlisted(p)
      modifies this`ready
      ensures ready == old(ready) + [p]
    {
      ready := ready + [p];
    }

    method AppendWaiting(p: Ref)
      requires Rep() && Unlisted(p)
      modifies this`waiting
      ensures waiting == old(waiting) + [p]
    {
      waiting := waiting + [p];
    }

    method AppendZombie(p: Ref)
      requires Rep() && Unlisted(p)
      modifies this`zombie
      ensures zombie == old(zombie) + [p]
    {
      zombie := zombie + [p];
    }

    method WakeReadyProcess(p: Ref)
      requires Rep() && NoDup(waiting) && p !in ready && p !in zombie
      modifies this`waiting, this`ready, pcb
      ensures St() == WakeReady(old(St()), p)
    {
      if p in waiting {
        RemoveNoDup(waiting, p);
        waiting := Remove(waiting, p);
      }
      Store(p, pcb[p].(status := Ready));
      AppendReady(p);
    }

    /** The running process is blocked, and the head of the ready list takes over. */
    method BlockRunning(mark: bool)
      requires Rep() && running.Some? && Unlisted(running.value)
      modifies this`waiting, this`ready, this`running, pcb
      ensures St() == PickNext(Park(old(St())), mark)
    {
      var r := running.value;
      Store(r, pcb[r].(status := Waiting));
      AppendWaiting(r);
      if ready != [] {
        var next := ready[0];
        ready := ready[1..];
        if mark { Store(next, pcb[next].(status := Running)); }
        running := Some(next);
      } else {
        running := None;
      }
    }

    method InternalSchedule()
      requires Rep() && (running.Some? ==> Unlisted(running.value))
      modifies this`ready, this`running, pcb
      ensures St() == Schedule(old(St()))
    {
      if ready != [] {
        var next := ready[0];
        ready := ready[1..];
        if running.Some? {
          Store(running.value, pcb[running.value].(status := Ready));
          AppendReady(running.value);
        }
        Store(next, pcb[next].(status := Running));
        running := Some(next);
      }
    }

    // ---------- blocking queues ----------

    /** Queue `id` is number `i` in the registry. */
    ghost predicate At(i: nat, id: int)
      requires Rep()
      reads this
    {
      && i < |registry| && registry[i].id == id
      && id in Registered(registry) && Registered(registry)[id] == registry[i]
    }

    method BqById(id: int) returns (i: Option<nat>)
      requires Rep()
      ensures i.Some? ==> At(i.value, id)
      ensures i.None? ==> id !in St().queues
    {
      var k := 0;
      while k < |registry|
        invariant k <= |registry|
        invariant forall j :: 0 <= j < k ==> registry[j].id != id
      {
        if registry[k].id == id {
          RegisteredAt(registry, k);
          return Some(k);
        }
        k := k + 1;
      }
      RegisteredIds(registry);
      return None;
    }

    /** Updates a queue in place. */
    method StoreQueue(i: nat, q: Queue)
      requires Rep() && At(i, q.id)
      modifies this`registry
      ensures Rep() && At(i, q.id) && registry == old(registry)[i := q]
      ensures St() == SetQueue(old(St()), q.id, q)
    {
      RegisteredUpdate(registry, i, q);
      registry := registry[i := q];
    }

    method BqCreate()
      requires Rep() && running.Some?
      modifies this`registry, this`bqPool, pcb
      ensures Rep() && St() == DoCreate(old(St()))
    {
      var id, cap := pcb[running.value].arg0, pcb[running.value].arg1;
      if cap <= 0 { ReturnValue(ESYSCALL_ARGUMENT_OUT_OF_BOUNDS); return; }
      var found := BqById(id);
      if found.Some? { ReturnValue(EEXIST); return; }
      if bqPool.free == [] { ReturnValue(ESYSCALL_NOT_IMPLEMENTED); return; }
      var q := Queue(bqPool.free[0], id, cap, 0, [], [], []);
      bqPool := bqPool.Take(id);
      UniqueAppend(registry, q);
      RegisteredAppend(registry, q);
      registry := registry + [q];
      ReturnValue(0);
    }

    /** Gives back every buffered item, and then the queue. */
    method BqFree(q: Queue)
      requires Rep()
      modifies this`itemPool, this`bqPool
      ensures itemPool == GiveItems(old(itemPool), q.items) && bqPool == old(bqPool).Give(q.block)
    {
      var items := q.items;
      while items != []
        invariant GiveItems(itemPool, items) == GiveItems(old(itemPool), q.items)
        invariant bqPool == old(bqPool)
        decreases |items|
      {
        itemPool := itemPool.Give(items[0].block);
        items := items[1..];
      }
      bqPool := bqPool.Give(q.block);
    }

    method Unregister(i: nat)
      requires Rep() && i < |registry|
      modifies this`registry
      ensures Rep() && St() == old(St()).(queues := old(St()).queues - {old(registry[i]).id})
    {
      UniqueRemove(registry, i);
      RegisteredRemove(registry, i);
      registry := RemoveAt(registry, i);
    }

    method BqDelete()
      requires Rep() && running.Some?
      modifies this`registry, this`itemPool, this`bqPool, pcb
      ensures Rep() && St() == DoDelete(old(St()))
    {
      hide GiveItems;
      var id := pcb[running.value].arg0;
      var found := BqById(id);
      if found.None? { ReturnValue(ERESOURCENOFD); return; }
      var q := registry[found.value];
      if q.getters != [] || q.putters != [] { ReturnValue(ERESOURCEINUSE); return; }
      Unregister(found.value);
      BqFree(q);
      ReturnValue(0);
    }

    /** A new item at the end of the buffer. */
    method AddToBuffer(i: nat, id: int, value: int)
      requires Rep() && At(i, id) && itemPool.free != []
      modifies this`registry, this`itemPool
      ensures Rep() && At(i, id) && St() == AddItem(old(St()), id, value)
    {
      var it := Item(itemPool.free[0], value);
      itemPool := itemPool.Take(id);
      StoreQueue(i, registry[i].(items := registry[i].items + [it], size := registry[i].size + 1));
    }

    /** The value goes straight to the first process waiting to get. */
    method PassToGetter(i: nat, id: int, value: int)
      requires Rep() && At(i, id) && CoreInv(St()) && registry[i].getters != []
      modifies this`registry, this`ptrPool, this`mem, this`ready, this`waiting, pcb
      ensures Rep() && At(i, id) && St() == HandToGetter(old(St()), id, value)
    {
      hide CoreInv;
      var l := registry[i].getters[0];
      WaiterIsWaiting(St(), id, l);
      StoreQueue(i, registry[i].(getters := registry[i].getters[1..]));
      ptrPool := ptrPool.Give(l.block);
      mem := Write(mem, pcb[l.pcb].arg1, value);
      Store(l.pcb, pcb[l.pcb].(retval := 0));
      WakeReadyProcess(l.pcb);
    }

    method BqPut()
      requires Rep() && CoreInv(St()) && running.Some? && PutSafe(St())
      modifies this`registry, this`ptrPool, this`itemPool, this`mem, this`ready, this`waiting, this`running, pcb
      ensures Rep() && St() == DoPut(old(St()))
    {
      hide CoreInv, HandToGetter, PickNext;
      RunningIsUnlisted(St());
      var r := running.value;
      var id, value := pcb[r].arg0, pcb[r].arg1;
      var found := BqById(id);
      if found.None? { ReturnValue(ERESOURCENOFD); return; }
      var i := found.value;
      var q := registry[i];
      if q.getters != [] {
        PassToGetter(i, id, value);
        ReturnValue(0);
        return;
      }
      if q.size < q.capacity {
        if itemPool.free == [] { ReturnValue(ESYSCALL_NOT_IMPLEMENTED); return; }
        AddToBuffer(i, id, value);
        ReturnValue(0);
        return;
      }
      var l := Link(ptrPool.free[0], r);
      ptrPool := ptrPool.Take(WaiterOf(r));
      StoreQueue(i, q.(putters := q.putters + [l]));
      BlockRunning(true);
    }

    method TakeFromBuffer(i: nat, id: int, out: int)
      requires Rep() && At(i, id) && registry[i].items != []
      modifies this`registry, this`itemPool, this`mem
      ensures Rep() && At(i, id) && St() == TakeItem(old(St()), id, out)
      ensures registry[i].putters == old(registry[i]).putters
    {
      var it := registry[i].items[0];
      StoreQueue(i, registry[i].(items := registry[i].items[1..], size := registry[i].size - 1));
      mem := Write(mem, out, it.value);
      itemPool := itemPool.Give(it.block);
    }

    /** The first process waiting to put leaves the queue. */
    method DetachPutter(i: nat, id: int) returns (p: Ref)
      requires Rep() && At(i, id) && registry[i].putters != []
      modifies this`registry, this`ptrPool
      ensures Rep() && At(i, id) && St() == DropPutter(old(St()), id)
      ensures p == old(registry[i]).putters[0].pcb
    {
      var l := registry[i].putters[0];
      StoreQueue(i, registry[i].(putters := registry[i].putters[1..]));
      ptrPool := ptrPool.Give(l.block);
      return l.pcb;
    }

    /** The put of the first process waiting to put, if there is one, is completed. */
    method CompletePut(i: nat, id: int)
      requires Rep() && At(i, id)
      requires registry[i].putters != [] ==>
        var p := registry[i].putters[0].pcb; NoDup(waiting) && p !in ready && p !in zombie
      modifies this`registry, this`ptrPool, this`itemPool, this`ready, this`waiting, pcb
      ensures Rep() && At(i, id) && St() == Refill(old(St()), id)
    {
      if registry[i].putters != [] {
        var p := DetachPutter(i, id);
        var v := pcb[p].arg1;
        if itemPool.free != [] { AddToBuffer(i, id, v); }
        Store(p, pcb[p].(retval := 0));
        WakeReadyProcess(p);
      }
    }

    /** The value of the first process waiting to put goes straight to the caller. */
    method PassFromPutter(i: nat, id: int, out: int)
      requires Rep() && At(i, id) && CoreInv(St()) && registry[i].putters != []
      modifies this`registry, this`ptrPool, this`mem, this`ready, this`waiting, pcb
      ensures Rep() && At(i, id) && St() == HandFromPutter(old(St()), id, out)
    {
      hide CoreInv;
      WaiterIsWaiting(St(), id, registry[i].putters[0]);
      var p := DetachPutter(i, id);
      mem := Write(mem, out, pcb[p].arg1);
      Store(p, pcb[p].(retval := 0));
      WakeReadyProcess(p);
    }

    /** The caller gets the first buffered value, and a blocked put moves up. */
    method GetFromBuffer(i: nat, id: int, out: int)
      requires Rep() && At(i, id) && running.Some? && registry[i].items != []
      requires registry[i].putters != [] ==>
        var p := registry[i].putters[0].pcb; NoDup(waiting) && p !in ready && p !in zombie
      modifies this`registry, this`ptrPool, this`itemPool, this`mem, this`ready, this`waiting, pcb
      ensures Rep()
      ensures var s := Refill(TakeItem(old(St()), id, out), id); s.running.Some? && St() == Return(s, 0)
    {
      hide Refill, TakeItem;
      TakeFromBuffer(i, id, out);
      CompletePut(i, id);
      RefillRuns(old(St()), id, out);
      ReturnValue(0);
    }

    method BqGet()
      requires Rep() && CoreInv(St()) && running.Some? && GetSafe(St())
      modifies this`registry, this`ptrPool, this`itemPool, this`mem, this`ready, this`waiting, this`running, pcb
      ensures Rep() && St() == DoGet(old(St()))
    {
      hide CoreInv, HandFromPutter, Refill, TakeItem, PickNext;
      RunningIsUnlisted(St());
      var r := running.value;
      var id, out := pcb[r].arg0, pcb[r].arg1;
      var found := BqById(id);
      if found.None? { ReturnValue(ERESOURCENOFD); return; }
      var i := found.value;
      var q := registry[i];
      if q.putters != [] { WaiterIsWaiting(St(), id, q.putters[0]); }
      if q.items != [] {
        GetFromBuffer(i, id, out);
        return;
      }
      if q.putters != [] {
        PassFromPutter(i, id, out);
        ReturnValue(0);
        return;
      }
      var l := Link(ptrPool.free[0], r);
      ptrPool := ptrPool.Take(WaiterOf(r));
      StoreQueue(i, q.(getters := q.getters + [l]));
      BlockRunning(true);
    }

    // ---------- timers ----------

    /** Scans for the first timer that expires strictly later, and puts the new one before it. */
    method TimerListAdd(wake: int, p: Ref) returns (ok: bool)
      requires Rep()
      modifies this`timers, this`timerPool
      ensures ok == (old(timerPool).free != [])
      ensures ok ==>
        && timers == TimerInsert(old(timers), Timer(old(timerPool).free[0], wake, p))
        && timerPool == old(timerPool).Take(p)
      ensures !ok ==> timers == old(timers) && timerPool == old(timerPool)
    {
      var pos := 0;
      while pos < |timers|
        invariant pos <= |timers|
        invariant TimerPos(timers, wake) == pos + TimerPos(timers[pos..], wake)
      {
        if wake < timers[pos].wake { break; }
        assert timers[pos..][1..] == timers[pos + 1..];
        pos := pos + 1;
      }
      if timerPool.free == [] { return false; }
      var t := Timer(timerPool.free[0], wake, p);
      timerPool := timerPool.Take(p);
      timers := timers[..pos] + [t] + timers[pos..];
      return true;
    }

    method Sleep()
      requires Rep() && CoreInv(St()) && running.Some?
      modifies this`timers, this`timerPool, this`ready, this`waiting, this`running, pcb
      ensures Rep() && St() == DoSleep(old(St()))
    {
      hide CoreInv, TimerInsert, PickNext;
      RunningIsUnlisted(St());
      var r := running.value;
      if pcb[r].timer.Some? { ReturnValue(ESLEEP); return; }
      var ok := TimerListAdd(time + pcb[r].arg0, r);
      if !ok { ReturnValue(ESLEEP); return; }
      BlockRunning(false);
    }

    /** Wakes the process of the first timer. */
    method WakeSleeper()
      requires Rep() && CoreInv(St()) && timers != []
      modifies this`timers, this`timerPool, this`ready, this`waiting, pcb
      ensures St() == WakeFirst(old(St()))
    {
      hide CoreInv;
      SleeperIsWaiting(St());
      var t := timers[0];
      timers := timers[1..];
      timerPool := timerPool.Give(t.block);
      Store(t.pcb, pcb[t.pcb].(timer := None));
      WakeReadyProcess(t.pcb);
    }

    /** Wakes from the head of the timer list for as long as the head has expired. */
    method WakeExpired()
      requires Rep() && CoreInv(St())
      modifies this`timers, this`timerPool, this`ready, this`waiting, pcb
      ensures Rep() && CoreInv(St()) && St() == WakeDue(old(St()))
    {
      hide CoreInv, WakeFirst;
      ghost var s := St();
      while timers != [] && timers[0].wake <= time
        invariant Rep() && CoreInv(St()) && WakeDue(St()) == WakeDue(s)
        decreases |timers|
      {
        WakeFirstKeeps(St());
        WakeFirstShorter(St());
        WakeSleeper();
      }
    }

    method TickBody()
      requires Rep() && CoreInv(St())
      modifies this`time, this`timers, this`timerPool, this`ready, this`waiting, this`running, pcb
      ensures Rep() && St() == DoTick(old(St()))
    {
      hide CoreInv, WakeDue, Schedule;
      LaterKeeps(St());
      time := time + 1;
      WakeExpired();
      if running.Some? { RunningIsUnlisted(St()); }
      InternalSchedule();
    }

    // ---------- processes ----------

    /** A block for a new process; what it does not set keeps what the block held before. */
    method PcbAlloc() returns (c: Ref)
      requires Rep() && pcbPool.free != []
      modifies this`pcbPool, this`lastPid, pcb
      ensures Rep() && c == old(pcbPool).free[0]
      ensures var s := old(St());
        St() == SetPcb(s, c, FreshPcb(s.pcb[c], s.lastPid)).(pcbPool := s.pcbPool.Take(()), lastPid := s.lastPid + 1)
    {
      c := pcbPool.free[0];
      pcbPool := pcbPool.Take(());
      Store(c, pcb[c].(pid := lastPid, returnValue := 0, status := Invalid,
                       descriptors := [], parent := None, timer := None, children := []));
      lastPid := lastPid + 1;
    }

    /** Process `c` is entered in the children list of `r`. */
    method LinkChild(r: Ref, c: Ref)
      requires Rep() && ptrPool.free != []
      modifies this`ptrPool, pcb
      ensures Rep()
      ensures var s := old(St());
        St() == SetPcb(s, r, s.pcb[r].(children := s.pcb[r].children + [Link(s.ptrPool.free[0], c)]))
                .(ptrPool := s.ptrPool.Take(ChildOf(c)))
    {
      var b := ptrPool.free[0];
      ptrPool := ptrPool.Take(ChildOf(c));
      Store(r, pcb[r].(children := pcb[r].children + [Link(b, c)]));
    }

    method InternalSpawn()
      requires Rep() && CoreInv(St()) && running.Some? && SpawnSafe(St())
      modifies this`pcbPool, this`ptrPool, this`lastPid, this`ready, pcb
      ensures Rep() && St() == DoSpawn(old(St()))
    {
      hide CoreInv, FreshPcb, DoSpawn;
      NewProcessIsUnlisted(St());
      SpawnInSteps(St());
      var r := running.value;
      var c := PcbAlloc();
      Store(c, pcb[c].(status := Ready, parent := Some(r)));
      LinkChild(r, c);
      AppendReady(c);
      ReturnValue(pcb[c].pid);
    }

    method PcbPtrByPid(ls: seq<Link>, pid: int) returns (i: Option<nat>)
      requires Rep()
      ensures i == FindLink(pcb[..], ls, pid)
    {
      var k := 0;
      while k < |ls|
        invariant k <= |ls|
        invariant forall j :: 0 <= j < k ==> pcb[ls[j].pcb].pid != pid
      {
        if pcb[ls[k].pcb].pid == pid {
          FirstLink(pcb[..], ls, pid, k);
          return Some(k);
        }
        k := k + 1;
      }
      return None;
    }

    /** The link to the child with this pid goes back to the pool. */
    method UnlinkChild(parent: Ref, pid: int)
      requires Rep()
      modifies this`ptrPool, pcb
      ensures Rep() && St() == Unlink(old(St()), parent, pid)
    {
      var link := PcbPtrByPid(pcb[parent].children, pid);
      if link.Some? {
        var l := pcb[parent].children[link.value];
        Store(parent, pcb[parent].(children := RemoveAt(pcb[parent].children, link.value)));
        ptrPool := ptrPool.Give(l.block);
      }
    }

    method ReapChild(parent: Ref, child: Ref, out: int) returns (pid: int)
      requires Rep()
      modifies this`zombie, this`ptrPool, this`pcbPool, this`mem, pcb
      ensures Rep() && St() == Reap(old(St()), parent, child, out)
      ensures pid == old(pcb[child]).pid
    {
      hide Unlink, Write;
      pid := pcb[child].pid;
      UnlinkKeepsResult(St().(zombie := Remove(zombie, child)), parent, pid, child);
      if child in zombie { zombie := Remove(zombie, child); }
      UnlinkChild(parent, pid);
      mem := Write(mem, out, pcb[child].returnValue);
      pid := pcb[child].pid;
      pcbPool := pcbPool.Give(child);
    }

    method FindAwaited(pid: int) returns (z: Option<Ref>)
      requires Rep() && running.Some?
      ensures z == FindZombie(St(), zombie, running.value, pid)
    {
      var k := 0;
      while k < |zombie|
        invariant k <= |zombie|
        invariant FindZombie(St(), zombie, running.value, pid) == FindZombie(St(), zombie[k..], running.value, pid)
      {
        var c := zombie[k];
        if pcb[c].parent == running && (pid == 0 || pcb[c].pid == pid) { return Some(c); }
        k := k + 1;
      }
      return None;
    }

    method InternalWait()
      requires Rep() && CoreInv(St()) && running.Some? && WaitSafe(St())
      modifies this`zombie, this`ptrPool, this`pcbPool, this`mem, this`ready, this`waiting, this`running, pcb
      ensures Rep() && St() == DoWait(old(St()))
    {
      hide CoreInv, Reap, PickNext, FindZombie;
      RunningIsUnlisted(St());
      var r := running.value;
      var pid, out := pcb[r].arg0, pcb[r].arg1;
      if pcb[r].children == [] { ReturnValue(EWAIT); return; }
      var awaited := FindAwaited(pid);
      if awaited.Some? {
        ReapRuns(St(), r, awaited.value, out);
        var reaped := ReapChild(r, awaited.value, out);
        ReturnValue(reaped);
        return;
      }
      BlockRunning(false);
    }

    /** The children of the caller become children of init, one by one. */
    method Reparent()
      requires Rep() && running.Some? && ExitSafe(St())
      modifies pcb
      ensures Rep()
      ensures running.value != initPcb ==> St() == ReparentAll(old(St()), running.value)
      ensures running.value == initPcb ==> St() == old(St())
    {
      hide LoopEnds;
      ExitSafeExactly(St());
      var r := running.value;
      ghost var s0 := St();
      while pcb[r].children != []
        invariant r == initPcb ==> St() == s0 && pcb[r].children == []
        invariant r != initPcb ==> ReparentAll(St(), r) == ReparentAll(s0, r)
        decreases |pcb[r].children|
      {
        var l := pcb[r].children[0];
        ghost var s1 := St();
        Store(r, pcb[r].(children := pcb[r].children[1..]));
        Store(initPcb, pcb[initPcb].(children := pcb[initPcb].children + [l]));
        Store(l.pcb, pcb[l.pcb].(parent := Some(initPcb)));
        assert St() == ReparentOne(s1, r);
      }
    }

    /** A parent that is blocked in a wait for this process becomes ready. */
    method WakeAwaitingParent(r: Ref)
      requires Rep()
      requires ParentAwaits(St(), r) ==>
        var p := pcb[r].parent.value; NoDup(waiting) && p !in ready && p !in zombie
      modifies this`ready, this`waiting, pcb
      ensures Rep() && St() == NotifyParent(old(St()), r)
    {
      var parent := pcb[r].parent;
      if parent.Some? && pcb[parent.value].status == Waiting && pcb[parent.value].syscallNum == CALL_WAIT {
        var pidToWait := pcb[parent.value].arg0;
        if pidToWait == 0 || pidToWait == pcb[r].pid { WakeReadyProcess(parent.value); }
      }
    }

    method InternalExit()
      requires Rep() && CoreInv(St()) && running.Some? && ExitSafe(St())
      modifies this`zombie, this`ready, this`waiting, this`running, pcb
      ensures Rep() && St() == DoExit(old(St()))
    {
      hide CoreInv, ReparentAll, PickNext, ParentAwaits, NotifyParent, LoopEnds;
      var r := running.value;
      AdoptKeeps(St());
      ExitSafeExactly(St());
      Store(r, pcb[r].(returnValue := pcb[r].arg0));
      ExitSafeExactly(St());
      Reparent();
      ghost var s1 := St();
      assert s1 == Adopt(old(St()));
      ExitingProcess(s1, r);
      Store(r, pcb[r].(status := Zombie));
      AppendZombie(r);
      running := None;
      assert St() == Bury(s1, r);
      WakeAwaitingParent(r);
      NotifyRuns(Bury(s1, r), r);
      InternalSchedule();
      ScheduleIdle(NotifyParent(Bury(s1, r), r));
    }

    // ---------- resources ----------

    method ResourceListById(id: int) returns (b: Option<nat>)
      requires forall x :: x in resList ==> x in resPool.live
      ensures b == ResourceById(resPool.live, resList, id)
    {
      var k := 0;
      while k < |resList|
        invariant k <= |resList|
        invariant ResourceById(resPool.live, resList, id) == ResourceById(resPool.live, resList[k..], id)
      {
        if resPool.live[resList[k]].id == id { return Some(resList[k]); }
        k := k + 1;
      }
      return None;
    }

    method DescriptorListByFd(ds: seq<Descriptor>, fd: int) returns (i: Option<nat>)
      ensures i == DescriptorByFd(ds, fd)
    {
      var k := 0;
      while k < |ds|
        invariant k <= |ds|
        invariant forall j :: 0 <= j < k ==> ds[j].fd != fd
      {
        if ds[k].fd == fd {
          FirstDescriptor(ds, fd, k);
          return Some(k);
        }
        k := k + 1;
      }
      return None;
    }

    /** `ptr` goes to the end of the list of resource `rb`. */
    method AppendPtr(rb: nat, ptr: DescriptorPtr)
      requires Rep() && rb in resPool.live
      modifies this`resPool
      ensures var s, res := old(St()), old(resPool).live[rb];
        St() == s.(resPool := s.resPool.(live := s.resPool.live[rb :=
                    res.(descriptorPtrs := res.descriptorPtrs + [ptr])]))
    {
      var res := resPool.live[rb];
      resPool := resPool.(live := resPool.live[rb := res.(descriptorPtrs := res.descriptorPtrs + [ptr])]);
    }

    /** A descriptor of the running process for resource `rb`, linked to both of them. */
    method LinkDescriptor(rb: nat) returns (fd: int)
      requires Rep() && running.Some? && rb in resPool.live && desPool.free != [] && desPtrPool.free != []
      modifies this`desPool, this`desPtrPool, this`resPool, pcb
      ensures Rep() && St() == AddDescriptor(old(St()), rb) && fd == old(pcb[running.value]).lastFd
    {
      var r := running.value;
      var des := Descriptor(desPool.free[0], r, rb, pcb[r].lastFd, desPtrPool.free[0]);
      desPool := desPool.Take(des);
      var ptr := DescriptorPtr(desPtrPool.free[0], des.block);
      desPtrPool := desPtrPool.Take(des.block);
      Store(r, pcb[r].(lastFd := pcb[r].lastFd + 1, descriptors := pcb[r].descriptors + [des]));
      AppendPtr(rb, ptr);
      return des.fd;
    }

    /** The resource is known; it is opened if its type and the mode allow it. */
    method OpenExisting(rb: nat)
      requires Rep() && running.Some? && rb in resPool.live
      requires desPool.free != [] ==> desPtrPool.free != []
      modifies this`desPool, this`desPtrPool, this`resPool, pcb
      ensures Rep() && St() == OpenFound(old(St()), rb)
    {
      hide AddDescriptor;
      var p := pcb[running.value];
      if resPool.live[rb].rtype != p.arg1 { ReturnValue(ERESOURCEOPEN); return; }
      if ExclBit(p.arg2) && resPool.live[rb].descriptorPtrs != [] { ReturnValue(ERESOURCENOEXCL); return; }
      if desPool.free == [] { ReturnValue(ERESOURCENOFD); return; }
      var fd := LinkDescriptor(rb);
      ReturnValue(fd);
    }

    method InternalOpenResource()
      requires Rep() && CoreInv(St()) && running.Some? && OpenSafe(St())
      modifies this`desPool, this`desPtrPool, this`resPool, this`resList, pcb
      ensures Rep() && St() == DoOpen(old(St()))
    {
      hide CoreInv, OpenFound, ResourceById;
      ListedAreLive(St());
      var p := pcb[running.value];
      var res := ResourceListById(p.arg0);
      if CreateBit(p.arg2) {
        if res.Some? { ReturnValue(ERESOURCECREATE); return; }
        var b := resPool.free[0];
        resPool := resPool.Take(Resource(p.arg0, p.arg1, []));
        resList := resList + [b];
        res := Some(b);
      }
      if res.None? { ReturnValue(ERESOURCEOPEN); return; }
      OpenExisting(res.value);
    }

    /** Descriptor number `i` of the running process leaves both lists. */
    method UnlinkDescriptor(i: nat)
      requires Rep() && running.Some? && i < |pcb[running.value].descriptors|
      requires pcb[running.value].descriptors[i].res in resPool.live
      modifies this`desPool, this`desPtrPool, this`resPool, pcb
      ensures Rep() && St() == DropDescriptor(old(St()), i)
    {
      var r := running.value;
      var des := pcb[r].descriptors[i];
      Store(r, pcb[r].(descriptors := RemoveAt(pcb[r].descriptors, i)));
      var res := resPool.live[des.res];
      var ptrs := Remove(res.descriptorPtrs, DescriptorPtr(des.ptr, des.block));
      resPool := resPool.(live := resPool.live[des.res := res.(descriptorPtrs := ptrs)]);
      desPool := desPool.Give(des.block);
      desPtrPool := desPtrPool.Give(des.ptr);
    }

    method InternalCloseResource()
      requires Rep() && CoreInv(St()) && running.Some?
      modifies this`desPool, this`desPtrPool, this`resPool, pcb
      ensures Rep() && St() == DoClose(old(St()))
    {
      hide CoreInv, DescriptorByFd, Remove;
      var p := pcb[running.value];
      var des := DescriptorListByFd(p.descriptors, p.arg0);
      if des.None? { ReturnValue(ERESOURCECLOSE); return; }
      OpenResourceIsLive(St(), des.value);
      UnlinkDescriptor(des.value);
      ReturnValue(0);
    }

    method InternalDestroyResource()
      requires Rep() && CoreInv(St()) && running.Some?
      modifies this`resPool, this`resList, pcb
      ensures Rep() && St() == DoDestroy(old(St()))
    {
      hide CoreInv, ResourceById;
      ListedAreLive(St());
      var res := ResourceListById(pcb[running.value].arg0);
      if res.None? { ReturnValue(ERESOURCECLOSE); return; }
      if resPool.live[res.value].descriptorPtrs != [] { ReturnValue(ERESOURCEINUSE); return; }
      resList := Remove(resList, res.value);
      resPool := resPool.Give(res.value);
      ReturnValue(0);
    }

    // ---------- system calls and the timer interrupt ----------

    /** The first process takes the processor. */
    method StartInit()
      requires Rep() && pcbPool.free != []
      modifies this`pcbPool, this`lastPid, this`running, this`initPcb, pcb
      ensures Rep() && St() == Started(old(St()))
    {
      var init := PcbAlloc();
      Store(init, pcb[init].(status := Running));
      running := Some(init);
      initPcb := init;
    }

    /** The kernel right after it was started: the init process runs, everything else is empty. */
    constructor ()
      ensures Valid() && fresh(pcb) && St() == Boot()
    {
      pcb := new Pcb[MAX_NUM_PROCESSES](i => BLANK_PCB);
      pcbPool := Pool(AllRefs(), map[]);
      ptrPool := Pool(AllBlocks(MAX_NUM_PROCESSES), map[]);
      timerPool := Pool(AllBlocks(MAX_NUM_PROCESSES), map[]);
      bqPool := Pool(AllBlocks(MAX_NUM_BQUEUES), map[]);
      itemPool := Pool(AllBlocks(MAX_NUM_BQITEMS), map[]);
      resPool := Pool(AllBlocks(MAX_NUM_RESOURCES), map[]);
      desPool := Pool(AllBlocks(MAX_NUM_PROCESSES), map[]);
      desPtrPool := Pool(AllBlocks(MAX_NUM_PROCESSES), map[]);
      running, lastPid, time := None, 0, 0;
      ready, waiting, zombie, timers, registry, resList := [], [], [], [], [], [];
      mem, chans := map[], map[];
      initPcb := 0;
      new;
      hide Inv, AllRefs, AllBlocks, Started;
      assert pcb[..] == seq(MAX_NUM_PROCESSES, i => BLANK_PCB);
      StartIsBoot(St());
      StartInit();
      BootInv();
    }

    /** Runs the handler of the call the running process has made. */
    method DisastrOsTrap(op: Op)
      requires Rep() && CoreInv(St()) && running.Some? && !op.Tick? && HandlerSafe(St(), op)
      modifies this, pcb
      ensures Rep() && St() == Handler(old(St()), op)
    {
      hide CoreInv, Schedule, DoSpawn, DoWait, DoExit, DoSleep, DoCreate, DoDelete, DoPut, DoGet, DoOpen, DoClose,
           DoDestroy, SpawnSafe, WaitSafe, ExitSafe, PutSafe, GetSafe, OpenSafe;
      match op
      case Preempt =>
        RunningIsUnlisted(St());
        InternalSchedule();
      case Fork => InternalSpawn();
      case Spawn(_, _) => InternalSpawn();
      case Wait(_, _) => InternalWait();
      case Exit(_) => InternalExit();
      case Sleep(_) => Sleep();
      case Create(_, _) => BqCreate();
      case Delete(_) => BqDelete();
      case Put(_, _) => BqPut();
      case Get(_, _) => BqGet();
      case Open(_, _, _) => InternalOpenResource();
      case Close(_) => InternalCloseResource();
      case Destroy(_) => InternalDestroyResource();
    }

    /** A system call: the number and the arguments are saved in the caller's PCB, nobody
        else's, and its handler runs. */
    method DisastrOsSyscall(op: Op)
      requires Valid() && !op.Tick? && Safe(St(), op)
      modifies this, pcb
      ensures Valid() && St() == Step(old(St()), op)
    {
      hide Inv, CoreInv, HandlerSafe, Handler, Step, Safe, Observe, WithArgs;
      ghost var s := St();
      StepKeeps(s, op);
      InvCore(s);
      StepOfCall(s, op);
      TrapKeeps(s, op);
      var r := running.value;
      Store(r, WithArgs(pcb[r], op).(syscallNum := Number(op)));
      DisastrOsTrap(op);
      chans := Observe(s, op, St());
    }

    method TimerInterrupt()
      requires Valid()
      modifies this, pcb
      ensures Valid() && St() == Step(old(St()), Tick)
    {
      hide Inv, DoTick;
      StepKeeps(St(), Tick);
      InvCore(St());
      TickBody();
    }
  }

  lemma SpawnInSteps(s: State)
    requires s.running.Some? && SpawnSafe(s)
    ensures var r, c := s.running.value, s.pcbPool.free[0];
      var s1 := SetPcb(s, c, FreshPcb(s.pcb[c], s.lastPid)).(pcbPool := s.pcbPool.Take(()), lastPid := s.lastPid + 1);
      var s2 := SetPcb(s1, c, s1.pcb[c].(status := Ready, parent := Some(r)));
      var s3 := SetPcb(s2, r, s2.pcb[r].(children := s2.pcb[r].children + [Link(s.ptrPool.free[0], c)]))
                .(ptrPool := s.ptrPool.Take(ChildOf(c)));
      DoSpawn(s) == Return(s3.(ready := s.ready + [c]), s3.pcb[c].pid)
  {
  }

  lemma NewProcessIsUnlisted(s: State)
    requires CoreInv(s) && s.running.Some? && s.pcbPool.free != []
    ensures var c := s.pcbPool.free[0];
      c !in s.ready && c !in s.waiting && c !in s.zombie && c != s.running.value
  {
    assert s.pcbPool.free[0] in s.pcbPool.free;
  }

  lemma {:induction false} FirstLink(t: PcbTable, ls: seq<Link>, pid: int, i: nat)
    requires i < |ls| && t[ls[i].pcb].pid == pid
    requires forall j :: 0 <= j < i ==> t[ls[j].pcb].pid != pid
    ensures FindLink(t, ls, pid) == Some(i)
  {
    if i > 0 { FirstLink(t, ls[1..], pid, i - 1); }
  }

  lemma UnlinkKeepsResult(s: State, r: Ref, pid: int, z: Ref)
    ensures var s' := Unlink(s, r, pid);
      && s'.pcb[z].pid == s.pcb[z].pid && s'.pcb[z].returnValue == s.pcb[z].returnValue
      && s' == s.(pcb := s'.pcb, ptrPool := s'.ptrPool)
  {
  }

  lemma ReapRuns(s: State, r: Ref, z: Ref, out: int)
    ensures Reap(s, r, z, out).running == s.running
  {
  }

  /** The parent that an exit will wake is in the waiting list and nowhere else. */
  lemma ExitingProcess(s: State, r: Ref)
    requires CoreInv(s) && s.running == Some(r)
    ensures r !in s.ready && r !in s.waiting && r !in s.zombie
    ensures var s' := Bury(s, r);
      ParentAwaits(s', r) ==>
        var p := s'.pcb[r].parent.value; NoDup(s'.waiting) && p !in s'.ready && p !in s'.zombie
  {
    AwaitingParent(s, r);
  }

  lemma NotifyRuns(s: State, r: Ref)
    ensures NotifyParent(s, r).running == s.running
  {
  }

  lemma ScheduleIdle(s: State)
    requires s.running == None
    ensures Schedule(s) == PickNext(s, true)
  {
  }

  /** The first block of the PCB pool becomes the init process. */
  function Started(s: State): State
    requires s.pcbPool.free != []
  {
    var c := s.pcbPool.free[0];
    SetPcb(s, c, FreshPcb(s.pcb[c], s.lastPid).(status := Running))
    .(pcbPool := s.pcbPool.Take(()), lastPid := s.lastPid + 1, running := Some(c), initPcb := c)
  }

  lemma StartIsBoot(s: State)
    requires s.pcb == seq(MAX_NUM_PROCESSES, i => BLANK_PCB)
    requires s == Boot().(pcb := s.pcb, pcbPool := Pool(AllRefs(), map[]), lastPid := 0, running := None)
    ensures s.pcbPool.free != [] && Started(s) == Boot()
  {
    assert AllRefs()[0] == 0;
  }

  lemma InvCore(s: State)
    requires Inv(s)
    ensures CoreInv(s)
  {
  }

  lemma ListedAreLive(s: State)
    requires CoreInv(s)
    ensures forall b :: b in s.resList ==> b in s.resPool.live
    ensures s.desPool.free == s.desPtrPool.free
  {
  }

  lemma OpenResourceIsLive(s: State, i: nat)
    requires CoreInv(s) && s.running.Some? && i < |s.pcb[s.running.value].descriptors|
    ensures s.pcb[s.running.value].descriptors[i].res in s.resPool.live
  {
    DescriptorEntry(s, s.running.value, i);
  }

  lemma {:induction false} FirstDescriptor(ds: seq<Descriptor>, fd: int, i: nat)
    requires i < |ds| && ds[i].fd == fd
    requires forall j :: 0 <= j < i ==> ds[j].fd != fd
    ensures DescriptorByFd(ds, fd) == Some(i)
  {
    if i > 0 { FirstDescriptor(ds[1..], fd, i - 1); }
  }

  lemma WakeFirstShorter(s: State)
    requires s.timers != []
    ensures WakeFirst(s).timers == s.timers[1..]
  {
  }

  lemma RefillRuns(s: State, id: int, out: int)
    requires id in s.queues && s.queues[id].items != []
    ensures Refill(TakeItem(s, id, out), id).running == s.running
  {
  }

  lemma SleeperIsWaiting(s: State)
    requires CoreInv(s) && s.timers != []
    ensures NoDup(s.waiting) && s.timers[0].pcb !in s.ready && s.timers[0].pcb !in s.zombie
  {
    assert s.timers[0] in s.timers;
  }

  lemma RunningIsUnlisted(s: State)
    requires CoreInv(s) && s.running.Some?
    ensures var r := s.running.value;
      r !in s.ready && r !in s.waiting && r !in s.zombie
  {
  }

  lemma WaiterIsWaiting(s: State, id: int, l: Link)
    requires CoreInv(s) && id in s.queues
    requires l in s.queues[id].getters || l in s.queues[id].putters
    ensures NoDup(s.waiting) && l.pcb !in s.ready && l.pcb !in s.zombie
  {
    assert WaitersOk(s, s.queues[id].getters, id, CALL_GET) && WaitersOk(s, s.queues[id].putters, id, CALL_PUT);
    assert l.pcb in s.waiting;
  }
}
