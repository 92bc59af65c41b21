/** What each step of the kernel does to its state. These functions are the specification
    of the methods of class `Kernel`; what they achieve is proved in the later modules. */
module Syscalls {
  import opened Wrappers
  import opened Seqs
  import opened Pools
  import opened KernelState

  // ---------- small updates ----------

  function SetPcb(s: State, r: Ref, p: Pcb): State {
    s.(pcb := s.pcb[r := p])
  }

  function Return(s: State, v: int): State
    requires s.running.Some?
  {
    SetPcb(s, s.running.value, s.pcb[s.running.value].(retval := v))
  }

  /** The head of the ready list becomes the running process; with an empty ready list the
      processor is left idle. `mark` tells whether the caller sets the status. */
  function PickNext(s: State, mark: bool): State {
    if s.ready == [] then
      s.(running := None)
    else
      var next := s.ready[0];
      var s1 := s.(running := Some(next), ready := s.ready[1..]);
      if mark then SetPcb(s1, next, s1.pcb[next].(status := Running)) else s1
  }

  /** The running process joins the waiting list and leaves the processor. */
  function Park(s: State): State
    requires s.running.Some?
  {
    var r := s.running.value;
    SetPcb(s, r, s.pcb[r].(status := Waiting)).(waiting := s.waiting + [r], running := None)
  }

  function WakeReady(s: State, p: Ref): State {
    SetPcb(s, p, s.pcb[p].(status := Ready)).(waiting := Remove(s.waiting, p), ready := s.ready + [p])
  }

  /** The running process goes back to the end of the ready list. */
  function Yield(s: State): State
    requires s.running.Some?
  {
    var r := s.running.value;
    SetPcb(s, r, s.pcb[r].(status := Ready)).(ready := s.ready + [r], running := None)
  }

  function Schedule(s: State): State {
    if s.ready == [] then s
    else if s.running == None then PickNext(s, true)
    else PickNext(Yield(s), true)
  }

  // ---------- system call entry ----------

  function Number(op: Op): int
    requires !op.Tick?
  {
    match op
    case Preempt => CALL_PREEMPT
    case Fork => CALL_FORK
    case Spawn(_, _) => CALL_SPAWN
    case Wait(_, _) => CALL_WAIT
    case Exit(_) => CALL_EXIT
    case Sleep(_) => CALL_SLEEP
    case Create(_, _) => CALL_CREATE
    case Delete(_) => CALL_DELETE
    case Put(_, _) => CALL_PUT
    case Get(_, _) => CALL_GET
    case Open(_, _, _) => CALL_OPEN
    case Close(_) => CALL_CLOSE
    case Destroy(_) => CALL_DESTROY
  }

  /** The saved arguments after a call: a call overwrites only as many as it takes. */
  function WithArgs(p: Pcb, op: Op): Pcb {
    match op
    case Tick => p
    case Preempt => p
    case Fork => p
    case Spawn(a, b) => p.(arg0 := a, arg1 := b)
    case Wait(a, b) => p.(arg0 := a, arg1 := b)
    case Exit(a) => p.(arg0 := a)
    case Sleep(a) => p.(arg0 := a)
    case Create(a, b) => p.(arg0 := a, arg1 := b)
    case Delete(a) => p.(arg0 := a)
    case Put(a, b) => p.(arg0 := a, arg1 := b)
    case Get(a, b) => p.(arg0 := a, arg1 := b)
    case Open(a, b, c) => p.(arg0 := a, arg1 := b, arg2 := c)
    case Close(a) => p.(arg0 := a)
    case Destroy(a) => p.(arg0 := a)
  }

  function Trap(s: State, op: Op): State
    requires s.running.Some? && !op.Tick?
  {
    var r := s.running.value;
    SetPcb(s, r, WithArgs(s.pcb[r], op).(syscallNum := Number(op)))
  }

  // ---------- processes ----------

  predicate SpawnSafe(s: State) {
    s.pcbPool.free != [] && s.ptrPool.free != []
  }

  /** PCB_alloc: the fields it does not mention keep what the block held before. */
  function FreshPcb(stale: Pcb, pid: int): Pcb {
    stale.(pid := pid, returnValue := 0, status := Invalid, descriptors := [],
           parent := None, timer := None, children := [])
  }

  /** spawn and fork: they differ only in the execution context of the new process. */
  function DoSpawn(s: State): State
    requires s.running.Some? && SpawnSafe(s)
  {
    var r := s.running.value;
    var c := s.pcbPool.free[0];
    var b := s.ptrPool.free[0];
    var s1 := SetPcb(s, c, FreshPcb(s.pcb[c], s.lastPid).(status := Ready, parent := Some(r)));
    var s2 := SetPcb(s1, r, s1.pcb[r].(children := s1.pcb[r].children + [Link(b, c)], retval := s.lastPid));
    s2.(pcbPool := s.pcbPool.Take(()), ptrPool := s.ptrPool.Take(ChildOf(c)),
        lastPid := s.lastPid + 1, ready := s.ready + [c])
  }

  /** The child of `parent` that a wait for `pid` would reap; pid 0 stands for any child. */
  predicate Awaited(s: State, z: Ref, parent: Ref, pid: int) {
    s.pcb[z].parent == Some(parent) && (pid == 0 || s.pcb[z].pid == pid)
  }

  /** Position `i` of the list is the first with such a child. */
  ghost predicate FirstAwaited(s: State, zs: seq<Ref>, i: nat, parent: Ref, pid: int) {
    && i < |zs| && Awaited(s, zs[i], parent, pid)
    && forall j :: 0 <= j < i ==> !Awaited(s, zs[j], parent, pid)
  }

  function FindZombie(s: State, zs: seq<Ref>, parent: Ref, pid: int): (z: Option<Ref>)
    ensures z.Some? ==> exists i: nat :: FirstAwaited(s, zs, i, parent, pid) && zs[i] == z.value
    ensures z.None? ==> forall r :: r in zs ==> !Awaited(s, r, parent, pid)
  {
    if zs == [] then None
    else if Awaited(s, zs[0], parent, pid) then
      assert FirstAwaited(s, zs, 0, parent, pid);
      Some(zs[0])
    else
      var rest := FindZombie(s, zs[1..], parent, pid);
      assert forall i: nat :: FirstAwaited(s, zs[1..], i, parent, pid) ==> FirstAwaited(s, zs, i + 1, parent, pid);
      rest
  }

  /** PCBPtr_byPID: the position of the first link to a process with this pid. */
  function FindLink(t: PcbTable, ls: seq<Link>, pid: int): (i: Option<nat>)
    ensures i.Some? ==> i.value < |ls| && t[ls[i.value].pcb].pid == pid
    ensures i.None? ==> forall k :: 0 <= k < |ls| ==> t[ls[k].pcb].pid != pid
  {
    if ls == [] then None
    else if t[ls[0].pcb].pid == pid then Some(0)
    else
      var rest := FindLink(t, ls[1..], pid);
      assert forall k :: 1 <= k < |ls| ==> ls[k] == ls[1..][k - 1];
      if rest.Some? then Some(rest.value + 1) else None
  }

  function Unlink(s: State, parent: Ref, pid: int): State {
    var ls := s.pcb[parent].children;
    var i := FindLink(s.pcb, ls, pid);
    if i.None? then s
    else SetPcb(s, parent, s.pcb[parent].(children := RemoveAt(ls, i.value)))
         .(ptrPool := s.ptrPool.Give(ls[i.value].block))
  }

  function Reap(s: State, parent: Ref, child: Ref, out: int): State {
    var s1 := Unlink(s.(zombie := Remove(s.zombie, child)), parent, s.pcb[child].pid);
    s1.(mem := Write(s1.mem, out, s1.pcb[child].returnValue), pcbPool := s1.pcbPool.Give(child))
  }

  /** What a wait call finds when it starts: no child, a zombie to reap, or nothing yet. */
  predicate WaitBlocks(s: State)
    requires s.running.Some?
  {
    var r := s.running.value;
    s.pcb[r].children != [] && FindZombie(s, s.zombie, r, s.pcb[r].arg0).None?
  }

  /** A wait that has to block dereferences the head of the ready list unchecked. */
  predicate WaitSafe(s: State)
    requires s.running.Some?
  {
    WaitBlocks(s) ==> s.ready != []
  }

  function DoWait(s: State): State
    requires s.running.Some? && WaitSafe(s)
  {
    var r := s.running.value;
    var pid := s.pcb[r].arg0;
    if s.pcb[r].children == [] then
      Return(s, EWAIT)
    else
      var z := FindZombie(s, s.zombie, r, pid);
      if z.Some? then
        Return(Reap(s, r, z.value, s.pcb[r].arg1), s.pcb[z.value].pid)
      else
        PickNext(Park(s), false)
  }

  /** The first child of `r` becomes the last child of init. */
  function ReparentOne(s: State, r: Ref): State
    requires s.pcb[r].children != []
  {
    var l := s.pcb[r].children[0];
    var s1 := SetPcb(s, r, s.pcb[r].(children := s.pcb[r].children[1..]));
    var s2 := SetPcb(s1, s.initPcb, s1.pcb[s.initPcb].(children := s1.pcb[s.initPcb].children + [l]));
    SetPcb(s2, l.pcb, s2.pcb[l.pcb].(parent := Some(s.initPcb)))
  }

  /** The state after `n` turns of the loop that hands the children of `r` over to init. The
      loop stops when there are none left. */
  function Turns(s: State, r: Ref, n: nat): State
    decreases n
  {
    if n == 0 || s.pcb[r].children == [] then s else Turns(ReparentOne(s, r), r, n - 1)
  }

  /** The loop comes to an end. */
  ghost predicate LoopEnds(s: State, r: Ref) {
    exists n :: Turns(s, r, n).pcb[r].children == []
  }

  ghost predicate ExitSafe(s: State)
    requires s.running.Some?
  {
    LoopEnds(s, s.running.value)
  }

  function ReparentAll(s: State, r: Ref): State
    requires r != s.initPcb
    decreases |s.pcb[r].children|
  {
    if s.pcb[r].children == [] then s else ReparentAll(ReparentOne(s, r), r)
  }

  /** The parent of `r` is blocked in a wait that `r` satisfies. */
  predicate ParentAwaits(s: State, r: Ref) {
    var p := s.pcb[r].parent;
    && p.Some?
    && s.pcb[p.value].status == Waiting
    && s.pcb[p.value].syscallNum == CALL_WAIT
    && (s.pcb[p.value].arg0 == 0 || s.pcb[p.value].arg0 == s.pcb[r].pid)
  }

  function Bury(s: State, r: Ref): State {
    SetPcb(s, r, s.pcb[r].(status := Zombie)).(zombie := s.zombie + [r], running := None)
  }

  function NotifyParent(s: State, r: Ref): State {
    if ParentAwaits(s, r) then WakeReady(s, s.pcb[r].parent.value) else s
  }

  function Adopt(s: State): State
    requires s.running.Some? && ExitSafe(s)
  {
    var r := s.running.value;
    var s1 := SetPcb(s, r, s.pcb[r].(returnValue := s.pcb[r].arg0));
    if r == s.initPcb then s1 else ReparentAll(s1, r)
  }

  function DoExit(s: State): State
    requires s.running.Some? && ExitSafe(s)
  {
    var r := s.running.value;
    PickNext(NotifyParent(Bury(Adopt(s), r), r), true)
  }

  // ---------- timers ----------

  /** Where a timer goes: before the first one that expires strictly later. */
  function TimerPos(ts: seq<Timer>, wake: int): (i: nat)
    ensures i <= |ts|
    ensures forall k :: 0 <= k < i ==> ts[k].wake <= wake
    ensures i < |ts| ==> wake < ts[i].wake
  {
    if ts == [] || wake < ts[0].wake then 0 else 1 + TimerPos(ts[1..], wake)
  }

  function TimerInsert(ts: seq<Timer>, t: Timer): seq<Timer> {
    var i := TimerPos(ts, t.wake);
    ts[..i] + [t] + ts[i..]
  }

  /** A timer for the running process, `cycles` ticks from now. */
  function AddTimer(s: State, cycles: int): State
    requires s.running.Some? && s.timerPool.free != []
  {
    var r := s.running.value;
    var t := Timer(s.timerPool.free[0], s.time + cycles, r);
    s.(timers := TimerInsert(s.timers, t), timerPool := s.timerPool.Take(r))
  }

  function DoSleep(s: State): State
    requires s.running.Some?
  {
    var r := s.running.value;
    if s.pcb[r].timer.Some? || s.timerPool.free == [] then Return(s, ESLEEP)
    else PickNext(Park(AddTimer(s, s.pcb[r].arg0)), false)
  }

  /** The process of the first timer becomes ready. */
  function WakeFirst(s: State): State
    requires s.timers != []
  {
    var t := s.timers[0];
    var s1 := s.(timers := s.timers[1..], timerPool := s.timerPool.Give(t.block));
    WakeReady(SetPcb(s1, t.pcb, s1.pcb[t.pcb].(timer := None)), t.pcb)
  }

  /** Timers are taken from the head of the list for as long as the head has expired. */
  function WakeDue(s: State): State
    decreases |s.timers|
  {
    if s.timers == [] || s.time < s.timers[0].wake then s else WakeDue(WakeFirst(s))
  }

  function DoTick(s: State): State {
    Schedule(WakeDue(s.(time := s.time + 1)))
  }

  // ---------- blocking queues ----------

  function DoCreate(s: State): State
    requires s.running.Some?
  {
    var id, cap := s.pcb[s.running.value].arg0, s.pcb[s.running.value].arg1;
    if cap <= 0 then Return(s, ESYSCALL_ARGUMENT_OUT_OF_BOUNDS)
    else if id in s.queues then Return(s, EEXIST)
    else if s.bqPool.free == [] then Return(s, ESYSCALL_NOT_IMPLEMENTED)
    else
      var q := Queue(s.bqPool.free[0], id, cap, 0, [], [], []);
      Return(s.(queues := s.queues[id := q], bqPool := s.bqPool.Take(id)), 0)
  }

  function GiveItems(p: Pool<nat, int>, items: seq<Item>): Pool<nat, int>
    decreases |items|
  {
    if items == [] then p else GiveItems(p.Give(items[0].block), items[1..])
  }

  function DoDelete(s: State): State
    requires s.running.Some?
  {
    var id := s.pcb[s.running.value].arg0;
    if id !in s.queues then Return(s, ERESOURCENOFD)
    else
      var q := s.queues[id];
      if q.getters != [] || q.putters != [] then Return(s, ERESOURCEINUSE)
      else Return(s.(queues := s.queues - {id}, itemPool := GiveItems(s.itemPool, q.items),
                     bqPool := s.bqPool.Give(q.block)), 0)
  }

  function SetQueue(s: State, id: int, q: Queue): State {
    s.(queues := s.queues[id := q])
  }

  /** A value moves into the buffer of queue `id`, if there is a block to hold it. */
  function AddItem(s: State, id: int, v: int): State
    requires id in s.queues
  {
    if s.itemPool.free == [] then s
    else
      var q := s.queues[id];
      SetQueue(s, id, q.(items := q.items + [Item(s.itemPool.free[0], v)], size := q.size + 1))
      .(itemPool := s.itemPool.Take(id))
  }

  predicate PutBlocks(s: State)
    requires s.running.Some?
  {
    var id := s.pcb[s.running.value].arg0;
    id in s.queues && s.queues[id].getters == [] && s.queues[id].size >= s.queues[id].capacity
  }

  predicate GetBlocks(s: State)
    requires s.running.Some?
  {
    var id := s.pcb[s.running.value].arg0;
    id in s.queues && s.queues[id].items == [] && s.queues[id].putters == []
  }

  /** Blocking takes a block of the PCBPtr pool, without checking that there is one. */
  predicate PutSafe(s: State)
    requires s.running.Some?
  {
    PutBlocks(s) ==> s.ptrPool.free != []
  }

  predicate GetSafe(s: State)
    requires s.running.Some?
  {
    GetBlocks(s) ==> s.ptrPool.free != []
  }

  /** The first waiting getter receives `v` and becomes ready. */
  function HandToGetter(s: State, id: int, v: int): State
    requires id in s.queues && s.queues[id].getters != []
  {
    var q := s.queues[id];
    var l := q.getters[0];
    var s1 := SetQueue(s, id, q.(getters := q.getters[1..])).(ptrPool := s.ptrPool.Give(l.block));
    var s2 := s1.(mem := Write(s1.mem, s1.pcb[l.pcb].arg1, v));
    WakeReady(SetPcb(s2, l.pcb, s2.pcb[l.pcb].(retval := 0)), l.pcb)
  }

  /** The running process is entered at the end of the putters of queue `id`. */
  function JoinPutters(s: State, id: int): State
    requires s.running.Some? && id in s.queues && s.ptrPool.free != []
  {
    var r := s.running.value;
    var q := s.queues[id];
    SetQueue(s, id, q.(putters := q.putters + [Link(s.ptrPool.free[0], r)]))
    .(ptrPool := s.ptrPool.Take(WaiterOf(r)))
  }

  function JoinGetters(s: State, id: int): State
    requires s.running.Some? && id in s.queues && s.ptrPool.free != []
  {
    var r := s.running.value;
    var q := s.queues[id];
    SetQueue(s, id, q.(getters := q.getters + [Link(s.ptrPool.free[0], r)]))
    .(ptrPool := s.ptrPool.Take(WaiterOf(r)))
  }

  function DoPut(s: State): State
    requires s.running.Some? && PutSafe(s)
  {
    var id, v := s.pcb[s.running.value].arg0, s.pcb[s.running.value].arg1;
    if id !in s.queues then Return(s, ERESOURCENOFD)
    else
      var q := s.queues[id];
      if q.getters != [] then Return(HandToGetter(s, id, v), 0)
      else if q.size < q.capacity then
        if s.itemPool.free == [] then Return(s, ESYSCALL_NOT_IMPLEMENTED)
        else Return(AddItem(s, id, v), 0)
      else PickNext(Park(JoinPutters(s, id)), true)
  }

  /** The first waiting putter leaves the queue's list; its link goes back to the pool. */
  function DropPutter(s: State, id: int): State
    requires id in s.queues && s.queues[id].putters != []
  {
    var q := s.queues[id];
    SetQueue(s, id, q.(putters := q.putters[1..])).(ptrPool := s.ptrPool.Give(q.putters[0].block))
  }

  /** The put of the first waiting putter is completed into the buffer. */
  function Refill(s: State, id: int): State
    requires id in s.queues
  {
    var q := s.queues[id];
    if q.putters == [] then s
    else
      var p := q.putters[0].pcb;
      var s1 := AddItem(DropPutter(s, id), id, s.pcb[p].arg1);
      WakeReady(SetPcb(s1, p, s1.pcb[p].(retval := 0)), p)
  }

  function TakeItem(s: State, id: int, out: int): State
    requires id in s.queues && s.queues[id].items != []
  {
    var q := s.queues[id];
    SetQueue(s, id, q.(items := q.items[1..], size := q.size - 1))
    .(mem := Write(s.mem, out, q.items[0].value), itemPool := s.itemPool.Give(q.items[0].block))
  }

  /** Hand-off from a waiting putter past an empty buffer. */
  function HandFromPutter(s: State, id: int, out: int): State
    requires id in s.queues && s.queues[id].putters != []
  {
    var p := s.queues[id].putters[0].pcb;
    var s1 := DropPutter(s, id);
    var s2 := s1.(mem := Write(s1.mem, out, s1.pcb[p].arg1));
    WakeReady(SetPcb(s2, p, s2.pcb[p].(retval := 0)), p)
  }

  function DoGet(s: State): State
    requires s.running.Some? && GetSafe(s)
  {
    var id, out := s.pcb[s.running.value].arg0, s.pcb[s.running.value].arg1;
    if id !in s.queues then Return(s, ERESOURCENOFD)
    else
      var q := s.queues[id];
      if q.items != [] then Return(Refill(TakeItem(s, id, out), id), 0)
      else if q.putters != [] then Return(HandFromPutter(s, id, out), 0)
      else PickNext(Park(JoinGetters(s, id)), true)
  }

  // ---------- resources ----------

  /** ResourceList_byId: the block of the first resource in the list with this id. */
  function ResourceById(live: map<nat, Resource>, list: seq<nat>, id: int): (b: Option<nat>)
    ensures b.Some? ==> b.value in list && b.value in live && live[b.value].id == id
    ensures b.None? ==> forall x :: x in list && x in live ==> live[x].id != id
  {
    if list == [] then None
    else if list[0] in live && live[list[0]].id == id then Some(list[0])
    else ResourceById(live, list[1..], id)
  }

  /** DescriptorList_byFd: the position of the first descriptor with this number. */
  function DescriptorByFd(ds: seq<Descriptor>, fd: int): (i: Option<nat>)
    ensures i.Some? ==> i.value < |ds| && ds[i.value].fd == fd
    ensures i.None? ==> forall k :: 0 <= k < |ds| ==> ds[k].fd != fd
  {
    if ds == [] then None
    else if ds[0].fd == fd then Some(0)
    else
      var rest := DescriptorByFd(ds[1..], fd);
      assert forall k :: 1 <= k < |ds| ==> ds[k] == ds[1..][k - 1];
      if rest.Some? then Some(rest.value + 1) else None
  }

  /** Bit DSOS_CREATE of the open mode. */
  predicate CreateBit(mode: int) { mode % 2 == 1 }

  /** Bit DSOS_EXCL of the open mode. */
  predicate ExclBit(mode: int) { mode / 4 % 2 == 1 }

  /** Opening a resource that is to be created inserts the new block into the resource list
      unchecked; a descriptor is linked to its pointer block unchecked. */
  predicate OpenSafe(s: State)
    requires s.running.Some?
  {
    var p := s.pcb[s.running.value];
    && (CreateBit(p.arg2) && ResourceById(s.resPool.live, s.resList, p.arg0).None? ==> s.resPool.free != [])
    && (s.desPool.free != [] ==> s.desPtrPool.free != [])
  }

  function AddResource(s: State, id: int, rtype: int): State
    requires s.resPool.free != []
  {
    s.(resPool := s.resPool.Take(Resource(id, rtype, [])), resList := s.resList + [s.resPool.free[0]])
  }

  /** A new descriptor of the running process for the resource in block `rb`. */
  function AddDescriptor(s: State, rb: nat): State
    requires s.running.Some? && rb in s.resPool.live
    requires s.desPool.free != [] && s.desPtrPool.free != []
  {
    var r := s.running.value;
    var res := s.resPool.live[rb];
    var d := Descriptor(s.desPool.free[0], r, rb, s.pcb[r].lastFd, s.desPtrPool.free[0]);
    var res' := res.(descriptorPtrs := res.descriptorPtrs + [DescriptorPtr(d.ptr, d.block)]);
    SetPcb(s, r, s.pcb[r].(lastFd := d.fd + 1, descriptors := s.pcb[r].descriptors + [d]))
    .(desPool := s.desPool.Take(d), desPtrPool := s.desPtrPool.Take(d.block),
      resPool := s.resPool.(live := s.resPool.live[rb := res']))
  }

  function OpenFound(s: State, rb: nat): State
    requires s.running.Some? && rb in s.resPool.live
    requires s.desPool.free != [] ==> s.desPtrPool.free != []
  {
    var r := s.running.value;
    var res := s.resPool.live[rb];
    if res.rtype != s.pcb[r].arg1 then Return(s, ERESOURCEOPEN)
    else if ExclBit(s.pcb[r].arg2) && res.descriptorPtrs != [] then Return(s, ERESOURCENOEXCL)
    else if s.desPool.free == [] then Return(s, ERESOURCENOFD)
    else Return(AddDescriptor(s, rb), s.pcb[r].lastFd)
  }

  function DoOpen(s: State): State
    requires s.running.Some? && OpenSafe(s)
  {
    var p := s.pcb[s.running.value];
    var found := ResourceById(s.resPool.live, s.resList, p.arg0);
    if CreateBit(p.arg2) then
      if found.Some? then Return(s, ERESOURCECREATE)
      else OpenFound(AddResource(s, p.arg0, p.arg1), s.resPool.free[0])
    else if found.None? then Return(s, ERESOURCEOPEN)
    else OpenFound(s, found.value)
  }

  /** Descriptor number `i` of the running process is taken out of both lists. */
  function DropDescriptor(s: State, i: nat): State
    requires s.running.Some? && i < |s.pcb[s.running.value].descriptors|
  {
    var r := s.running.value;
    var d := s.pcb[r].descriptors[i];
    var s1 := SetPcb(s, r, s.pcb[r].(descriptors := RemoveAt(s.pcb[r].descriptors, i)))
              .(desPool := s.desPool.Give(d.block), desPtrPool := s.desPtrPool.Give(d.ptr));
    if d.res !in s.resPool.live then s1
    else
      var res := s.resPool.live[d.res];
      var res' := res.(descriptorPtrs := Remove(res.descriptorPtrs, DescriptorPtr(d.ptr, d.block)));
      s1.(resPool := s.resPool.(live := s.resPool.live[d.res := res']))
  }

  function DoClose(s: State): State
    requires s.running.Some?
  {
    var p := s.pcb[s.running.value];
    var i := DescriptorByFd(p.descriptors, p.arg0);
    if i.None? then Return(s, ERESOURCECLOSE) else Return(DropDescriptor(s, i.value), 0)
  }

  function DoDestroy(s: State): State
    requires s.running.Some?
  {
    var found := ResourceById(s.resPool.live, s.resList, s.pcb[s.running.value].arg0);
    if found.None? then Return(s, ERESOURCECLOSE)
    else if s.resPool.live[found.value].descriptorPtrs != [] then Return(s, ERESOURCEINUSE)
    else Return(s.(resList := Remove(s.resList, found.value), resPool := s.resPool.Give(found.value)), 0)
  }

  // ---------- one step ----------

  /** The handler of `op` neither dereferences a null pointer nor loops for ever. */
  ghost predicate HandlerSafe(s: State, op: Op)
    requires s.running.Some? && !op.Tick?
  {
    match op
    case Fork => SpawnSafe(s)
    case Spawn(_, _) => SpawnSafe(s)
    case Wait(_, _) => WaitSafe(s)
    case Exit(_) => ExitSafe(s)
    case Put(_, _) => PutSafe(s)
    case Get(_, _) => GetSafe(s)
    case Open(_, _, _) => OpenSafe(s)
    case _ => true
  }

  /** `op` can happen in `s`, and its handler comes to an end. */
  ghost predicate Safe(s: State, op: Op) {
    op.Tick? || (s.running.Some? && HandlerSafe(Trap(s, op), op))
  }

  function Handler(s: State, op: Op): State
    requires s.running.Some? && !op.Tick? && HandlerSafe(s, op)
  {
    match op
    case Preempt => Schedule(s)
    case Fork => DoSpawn(s)
    case Spawn(_, _) => DoSpawn(s)
    case Wait(_, _) => DoWait(s)
    case Exit(_) => DoExit(s)
    case Sleep(_) => DoSleep(s)
    case Create(_, _) => DoCreate(s)
    case Delete(_) => DoDelete(s)
    case Put(_, _) => DoPut(s)
    case Get(_, _) => DoGet(s)
    case Open(_, _, _) => DoOpen(s)
    case Close(_) => DoClose(s)
    case Destroy(_) => DoDestroy(s)
  }

  /** A call of `caller` was accepted: it is blocked, or it came back with 0. */
  predicate Accepted(after: State, caller: Ref) {
    after.pcb[caller].status == Waiting || after.pcb[caller].retval == 0
  }

  /** The history a user would write down, from calls and their outcomes alone. */
  function Observe(before: State, op: Op, after: State): map<int, Chan>
    requires before.running.Some?
  {
    var c := before.running.value;
    match op
    case Create(id, _) =>
      if Accepted(after, c) then before.chans[id := Chan([], [])] else before.chans
    case Delete(id) =>
      if Accepted(after, c) then before.chans - {id} else before.chans
    case Put(id, v) =>
      if Accepted(after, c) && id in before.chans then
        before.chans[id := before.chans[id].(puts := before.chans[id].puts + [v])]
      else before.chans
    case Get(id, out) =>
      if Accepted(after, c) && id in before.chans then
        before.chans[id := before.chans[id].(gets := before.chans[id].gets + [Request(before.pcb[c].pid, out)])]
      else before.chans
    case _ => before.chans
  }

  function Step(s: State, op: Op): State
    requires Safe(s, op)
  {
    if op.Tick? then DoTick(s)
    else
      var after := Handler(Trap(s, op), op);
      after.(chans := Observe(s, op, after))
  }

  // ---------- runs ----------

  function AllBlocks(n: nat): (bs: seq<nat>)
    ensures |bs| == n && forall i :: 0 <= i < n ==> bs[i] == i
  {
    seq(n, i requires 0 <= i < n => i)
  }

  function AllRefs(): (rs: seq<Ref>)
    ensures |rs| == MAX_NUM_PROCESSES && forall i :: 0 <= i < |rs| ==> rs[i] == i
  {
    seq(MAX_NUM_PROCESSES, i requires 0 <= i < MAX_NUM_PROCESSES => i as Ref)
  }

  /** The state disastrOS_start leaves: the init process running, everything else empty. */
  function Boot(): State {
    State(
      seq(MAX_NUM_PROCESSES, i => BLANK_PCB)[0 := FreshPcb(BLANK_PCB, 0).(status := Running)],
      Pool(AllRefs(), map[]).Take(()),
      Pool(AllBlocks(MAX_NUM_PROCESSES), map[]),
      Pool(AllBlocks(MAX_NUM_PROCESSES), map[]),
      Pool(AllBlocks(MAX_NUM_BQUEUES), map[]),
      Pool(AllBlocks(MAX_NUM_BQITEMS), map[]),
      0, Some(0), 1, [], [], [], [], 0, map[], map[],
      Pool(AllBlocks(MAX_NUM_RESOURCES), map[]), [],
      Pool(AllBlocks(MAX_NUM_PROCESSES), map[]),
      Pool(AllBlocks(MAX_NUM_PROCESSES), map[]),
      map[])
  }

  ghost predicate RunSafe(s: State, ops: seq<Op>)
    decreases |ops|
  {
    ops == [] || (Safe(s, ops[0]) && RunSafe(Step(s, ops[0]), ops[1..]))
  }

  function Run(s: State, ops: seq<Op>): State
    requires RunSafe(s, ops)
    decreases |ops|
  {
    if ops == [] then s else Run(Step(s, ops[0]), ops[1..])
  }

  /** `s` is the state after some run from boot in which no step faults. */
  ghost predicate Reachable(s: State) {
    exists ops :: RunSafe(Boot(), ops) && Run(Boot(), ops) == s
  }
}
