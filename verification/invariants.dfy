/** What holds of the kernel between any two steps of any run. */
module Invariants {
  import opened Wrappers
  import opened Seqs
  import opened Pools
  import opened KernelState
  import opened Syscalls

  ghost predicate Live(s: State, r: Ref) { r in s.pcbPool.live }

  ghost predicate HasRef(ls: seq<Link>, r: Ref) {
    exists i :: 0 <= i < |ls| && ls[i].pcb == r
  }

  ghost predicate UniqueRefs(ls: seq<Link>) {
    forall i, j :: 0 <= i < j < |ls| ==> ls[i].pcb != ls[j].pcb
  }

  // ---------- scheduling lists ----------

  /** Every live process is in exactly one of running, ready, waiting and zombie, and its
      status says which. A process that was dispatched by sleep or wait runs as Ready. */
  ghost predicate ListsInv(s: State) {
    && NoDup(s.ready) && NoDup(s.waiting) && NoDup(s.zombie)
    && (forall r: Ref :: r in s.ready ==> Live(s, r) && s.pcb[r].status == Ready)
    && (forall r: Ref :: r in s.waiting ==> Live(s, r) && s.pcb[r].status == Waiting)
    && (forall r: Ref :: r in s.zombie ==> Live(s, r) && s.pcb[r].status == Zombie)
    && (s.running.Some? ==>
          && Live(s, s.running.value)
          && s.pcb[s.running.value].status in {Running, Ready}
          && s.running.value !in s.ready)
    && (forall r: Ref :: Live(s, r) ==> r in s.ready || r in s.waiting || r in s.zombie || s.running == Some(r))
  }

  /** The processor is idle only if nobody is ready. */
  ghost predicate WorkConserving(s: State) {
    s.running == None ==> s.ready == []
  }

  // ---------- family tree ----------

  ghost predicate PidsInv(s: State) {
    && Live(s, s.initPcb) && s.pcb[s.initPcb].pid == 0
    && (forall r: Ref :: Live(s, r) ==> 0 <= s.pcb[r].pid < s.lastPid)
    && (forall r: Ref, q: Ref :: Live(s, r) && Live(s, q) && s.pcb[r].pid == s.pcb[q].pid ==> r == q)
  }

  /** `c` has a live parent that is older and has `c` in its children list. */
  ghost predicate HasParent(s: State, c: Ref) {
    && s.pcb[c].parent.Some?
    && Live(s, s.pcb[c].parent.value)
    && s.pcb[s.pcb[c].parent.value].pid < s.pcb[c].pid
    && HasRef(s.pcb[s.pcb[c].parent.value].children, c)
  }

  /** `l` is a proper entry of the children list of `p`. */
  ghost predicate ChildLinkOk(s: State, p: Ref, l: Link) {
    && Live(s, l.pcb) && l.pcb != s.initPcb
    && s.pcb[l.pcb].parent == Some(p)
    && l.block in s.ptrPool.live && s.ptrPool.live[l.block] == ChildOf(l.pcb)
  }

  ghost predicate ParentsInv(s: State) {
    forall c: Ref :: Live(s, c) && c != s.initPcb ==> HasParent(s, c)
  }

  ghost predicate ChildrenInv(s: State) {
    && (forall p: Ref, l :: Live(s, p) && l in s.pcb[p].children ==> ChildLinkOk(s, p, l))
    && (forall p: Ref :: Live(s, p) ==> UniqueRefs(s.pcb[p].children))
  }

  /** Parent pointers and children lists mirror each other. */
  ghost predicate TreeInv(s: State) {
    && s.pcb[s.initPcb].parent == None
    && ParentsInv(s) && ChildrenInv(s)
    && (forall z: Ref :: z in s.zombie && z != s.initPcb ==> s.pcb[z].children == [])
    && (forall r: Ref :: Live(s, r) ==> s.pcb[r].timer == None)
  }

  // ---------- reasons to wait ----------

  ghost predicate HasTimer(ts: seq<Timer>, r: Ref) {
    exists i :: 0 <= i < |ts| && ts[i].pcb == r
  }

  ghost predicate UniqueSleepers(ts: seq<Timer>) {
    forall i, j :: 0 <= i < j < |ts| ==> ts[i].pcb != ts[j].pcb
  }

  ghost predicate WaitsToGet(s: State, r: Ref) {
    s.pcb[r].arg0 in s.queues && HasRef(s.queues[s.pcb[r].arg0].getters, r)
  }

  ghost predicate WaitsToPut(s: State, r: Ref) {
    s.pcb[r].arg0 in s.queues && HasRef(s.queues[s.pcb[r].arg0].putters, r)
  }

  ghost predicate BlockedIn(s: State, r: Ref, call: int) {
    r in s.waiting && s.pcb[r].syscallNum == call
  }

  ghost predicate Sorted(ts: seq<Timer>) {
    forall i, j :: 0 <= i < j < |ts| ==> ts[i].wake <= ts[j].wake
  }

  /** A waiting process waits for exactly what its last system call says. */
  ghost predicate WaitsInv(s: State) {
    && (forall r: Ref :: r in s.waiting ==> s.pcb[r].syscallNum in {CALL_SLEEP, CALL_WAIT, CALL_GET, CALL_PUT})
    && (forall r: Ref :: r in s.waiting && s.pcb[r].syscallNum == CALL_SLEEP ==> HasTimer(s.timers, r))
    && (forall r: Ref :: r in s.waiting && s.pcb[r].syscallNum == CALL_GET ==> WaitsToGet(s, r))
    && (forall r: Ref :: r in s.waiting && s.pcb[r].syscallNum == CALL_PUT ==> WaitsToPut(s, r))
  }

  ghost predicate OwnedByTimer(ts: seq<Timer>, b: nat, r: Ref) {
    exists i :: 0 <= i < |ts| && ts[i].block == b && ts[i].pcb == r
  }

  ghost predicate TimersInv(s: State) {
    && Sorted(s.timers)
    && (forall t :: t in s.timers ==>
          && BlockedIn(s, t.pcb, CALL_SLEEP)
          && t.block in s.timerPool.live && s.timerPool.live[t.block] == t.pcb)
    && UniqueSleepers(s.timers)
    && (forall b :: b in s.timerPool.live ==> OwnedByTimer(s.timers, b, s.timerPool.live[b]))
  }

  ghost predicate WaitersOk(s: State, ls: seq<Link>, id: int, call: int) {
    && UniqueRefs(ls)
    && forall l :: l in ls ==>
         && BlockedIn(s, l.pcb, call) && s.pcb[l.pcb].arg0 == id
         && l.block in s.ptrPool.live && s.ptrPool.live[l.block] == WaiterOf(l.pcb)
  }

  ghost predicate WaitersInv(s: State) {
    forall id :: id in s.queues ==>
      && WaitersOk(s, s.queues[id].getters, id, CALL_GET)
      && WaitersOk(s, s.queues[id].putters, id, CALL_PUT)
  }

  /** A process other than init that is blocked in wait has no zombie child it asked for. */
  ghost predicate NoLostWakeUp(s: State) {
    forall r: Ref, z: Ref ::
      r in s.waiting && s.pcb[r].syscallNum == CALL_WAIT && r != s.initPcb && z in s.zombie ==>
      !Awaited(s, z, r, s.pcb[r].arg0)
  }

  // ---------- queues ----------

  ghost predicate QueueOk(q: Queue) {
    && 0 < q.capacity
    && q.size == |q.items| <= q.capacity
    && (q.getters != [] ==> q.items == [] && q.putters == [])
    && (q.putters != [] ==> q.size == q.capacity)
  }

  ghost predicate UniqueBlocks(items: seq<Item>) {
    forall i, j :: 0 <= i < j < |items| ==> items[i].block != items[j].block
  }

  ghost predicate QueuesInv(s: State) {
    forall id :: id in s.queues ==> s.queues[id].id == id && QueueOk(s.queues[id])
  }

  /** Blocks of the queue pool and of the item pool are in use for the registered queues
      and the items buffered in them, and for nothing else. */
  ghost predicate StorageInv(s: State) {
    && (forall id :: id in s.queues ==>
          && s.queues[id].block in s.bqPool.live && s.bqPool.live[s.queues[id].block] == id
          && UniqueBlocks(s.queues[id].items)
          && forall i :: i in s.queues[id].items ==>
               i.block in s.itemPool.live && s.itemPool.live[i.block] == id)
    && (forall b :: b in s.bqPool.live ==>
          s.bqPool.live[b] in s.queues && s.queues[s.bqPool.live[b]].block == b)
    && (forall b :: b in s.itemPool.live ==>
          s.itemPool.live[b] in s.queues && HoldsBlock(s.queues[s.itemPool.live[b]].items, b))
  }

  ghost predicate HoldsBlock(items: seq<Item>, b: nat) {
    exists i :: 0 <= i < |items| && items[i].block == b
  }

  ghost predicate OwnedByChild(s: State, b: nat, c: Ref) {
    && Live(s, c) && c != s.initPcb && s.pcb[c].parent.Some?
    && Link(b, c) in s.pcb[s.pcb[c].parent.value].children
  }

  ghost predicate OwnedByWaiter(s: State, b: nat, r: Ref) {
    && s.pcb[r].arg0 in s.queues
    && (|| (BlockedIn(s, r, CALL_GET) && Link(b, r) in s.queues[s.pcb[r].arg0].getters)
        || (BlockedIn(s, r, CALL_PUT) && Link(b, r) in s.queues[s.pcb[r].arg0].putters))
  }

  ghost predicate Owned(s: State, b: nat, o: Owner) {
    match o
    case ChildOf(c) => OwnedByChild(s, b, c)
    case WaiterOf(r) => OwnedByWaiter(s, b, r)
  }

  /** The blocks of the PCBPtr pool in use are the child links and the queue links. */
  ghost predicate PtrInv(s: State) {
    forall b :: b in s.ptrPool.live ==> Owned(s, b, s.ptrPool.live[b])
  }

  ghost predicate PoolsInv(s: State) {
    && s.pcbPool.Wf(MAX_NUM_PROCESSES)
    && s.ptrPool.Wf(MAX_NUM_PROCESSES)
    && s.timerPool.Wf(MAX_NUM_PROCESSES)
    && s.bqPool.Wf(MAX_NUM_BQUEUES)
    && s.itemPool.Wf(MAX_NUM_BQITEMS)
    && s.resPool.Wf(MAX_NUM_RESOURCES)
    && s.desPool.Wf(MAX_NUM_PROCESSES)
    && s.desPtrPool.Wf(MAX_NUM_PROCESSES)
  }

  // ---------- queues as channels ----------

  function ItemValues(items: seq<Item>): (vs: seq<int>)
    ensures |vs| == |items|
  {
    seq(|items|, i requires 0 <= i < |items| => items[i].value)
  }

  /** The values of blocked putters are in the arguments saved when they called. */
  function PutValues(t: PcbTable, ls: seq<Link>): (vs: seq<int>)
    ensures |vs| == |ls|
  {
    seq(|ls|, i requires 0 <= i < |ls| => t[ls[i].pcb].arg1)
  }

  function Requests(t: PcbTable, ls: seq<Link>): (rs: seq<Request>)
    ensures |rs| == |ls|
  {
    seq(|ls|, i requires 0 <= i < |ls| => Request(t[ls[i].pcb].pid, t[ls[i].pcb].arg1))
  }

  /** The queue holds exactly the values put and not yet delivered, in order, and its
      blocked getters are exactly the requests not yet answered, in order. */
  ghost predicate Matches(t: PcbTable, q: Queue, c: Chan) {
    && ItemValues(q.items) + PutValues(t, q.putters) == c.puts[c.Served()..]
    && Requests(t, q.getters) == c.gets[c.Served()..]
  }

  ghost predicate ChansInv(s: State) {
    && s.chans.Keys == s.queues.Keys
    && forall id :: id in s.queues ==> Matches(s.pcb, s.queues[id], s.chans[id])
  }

  // ---------- resources ----------

  /** The registered resources are the allocated ones, under distinct ids. */
  ghost predicate RegistryOk(res: map<nat, Resource>, list: seq<nat>) {
    && NoDup(list)
    && (forall b :: b in list <==> b in res)
    && (forall a, b :: a in res && b in res && a != b ==> res[a].id != res[b].id)
  }

  /** Descriptor `d` has its entry in the list of its resource, which is allocated. */
  ghost predicate DescriptorOk(des: map<nat, Descriptor>, res: map<nat, Resource>, d: nat)
    requires d in des
  {
    && des[d].block == d && des[d].ptr == d
    && des[d].res in res && DescriptorPtr(d, d) in res[des[d].res].descriptorPtrs
  }

  ghost predicate DescriptorsOk(des: map<nat, Descriptor>, res: map<nat, Resource>) {
    forall d :: d in des ==> DescriptorOk(des, res, d)
  }

  /** Entry `x` in the list of resource `rb` belongs to a descriptor of that resource. */
  ghost predicate EntryOk(des: map<nat, Descriptor>, rb: nat, x: DescriptorPtr) {
    x.block == x.descriptor && x.descriptor in des && des[x.descriptor].res == rb
  }

  ghost predicate EntriesOk(des: map<nat, Descriptor>, res: map<nat, Resource>) {
    && (forall rb, x :: rb in res && x in res[rb].descriptorPtrs ==> EntryOk(des, rb, x))
    && (forall rb :: rb in res ==> NoDup(res[rb].descriptorPtrs))
  }

  /** The pools of descriptors and of descriptor pointers hold the same blocks. */
  ghost predicate Lockstep(des: Pool<nat, Descriptor>, ptrs: Pool<nat, nat>) {
    && des.free == ptrs.free
    && (forall d :: d in des.live <==> d in ptrs.live)
    && (forall d :: d in ptrs.live ==> ptrs.live[d] == d)
  }

  ghost predicate ResourcesInv(s: State) {
    && RegistryOk(s.resPool.live, s.resList)
    && DescriptorsOk(s.desPool.live, s.resPool.live)
    && EntriesOk(s.desPool.live, s.resPool.live)
    && Lockstep(s.desPool, s.desPtrPool)
  }

  ghost predicate IncreasingFds(ds: seq<Descriptor>) {
    forall i, j :: 0 <= i < j < |ds| ==> ds[i].fd < ds[j].fd
  }

  /** The descriptors of process `r` are in use, its own, and numbered below `lastFd`. */
  ghost predicate FdsOk(des: map<nat, Descriptor>, p: Pcb, r: Ref) {
    && IncreasingFds(p.descriptors)
    && forall d :: d in p.descriptors ==>
         d.fd < p.lastFd && d.pcb == r && d.block in des && des[d.block] == d
  }

  ghost predicate FdsInv(s: State) {
    forall r: Ref :: Live(s, r) ==> FdsOk(s.desPool.live, s.pcb[r], r)
  }

  // ---------- all of it ----------

  ghost predicate ProcInv(s: State) {
    ListsInv(s) && PidsInv(s) && TreeInv(s) && WaitsInv(s) && TimersInv(s) && WaitersInv(s)
    && NoLostWakeUp(s) && PtrInv(s)
  }

  ghost predicate DataInv(s: State) {
    PoolsInv(s) && QueuesInv(s) && StorageInv(s) && ResourcesInv(s) && FdsInv(s)
  }

  /** Everything except work conservation, which a step may break before it dispatches, and
      the history, which is brought up to date when a system call comes back. */
  ghost predicate CoreInv(s: State) {
    ProcInv(s) && DataInv(s)
  }

  ghost predicate Inv(s: State) {
    CoreInv(s) && WorkConserving(s) && ChansInv(s)
  }
}
