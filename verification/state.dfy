/** The data the disastrOS kernel keeps: process control blocks, the scheduling lists,
    timers, blocking queues, resources and the allocators behind them. */
module KernelState {
  import opened Wrappers
  import opened Pools

  const MAX_NUM_PROCESSES := 1024
  const MAX_NUM_RESOURCES := 1024
  const MAX_NUM_BQUEUES := 128
  const MAX_NUM_BQITEMS := 4096

  const ESYSCALL_ARGUMENT_OUT_OF_BOUNDS := -1
  const ESYSCALL_NOT_IMPLEMENTED := -2
  const EWAIT := -5
  const ESPAWN := -6
  const ESLEEP := -7
  const ERESOURCECREATE := -8
  const ERESOURCEOPEN := -9
  const ERESOURCENOEXCL := -10
  const ERESOURCENOFD := -11
  const ERESOURCECLOSE := -12
  const ERESOURCEINUSE := -13
  const EEXIST := -14

  const CALL_PREEMPT := 1
  const CALL_FORK := 2
  const CALL_WAIT := 3
  const CALL_EXIT := 4
  const CALL_SPAWN := 5
  const CALL_SLEEP := 6
  const CALL_OPEN := 7
  const CALL_CLOSE := 8
  const CALL_DESTROY := 9
  const CALL_CREATE := 11
  const CALL_DELETE := 12
  const CALL_PUT := 13
  const CALL_GET := 14

  /** A pointer to a process control block: the index of its block in the PCB buffer. */
  type Ref = r: int | 0 <= r < MAX_NUM_PROCESSES

  datatype Status = Invalid | Created | Running | Ready | Waiting | Zombie

  /** A list item that points to a PCB, kept in block `block` of the PCBPtr pool. */
  datatype Link = Link(block: nat, pcb: Ref)

  /** What a block of the PCBPtr pool is in use for. */
  datatype Owner = ChildOf(child: Ref) | WaiterOf(waiter: Ref)

  /** One open file of a process: `res` is the block of its resource, `ptr` the block of
      its entry in that resource's list. */
  datatype Descriptor = Descriptor(block: nat, pcb: Ref, res: nat, fd: int, ptr: nat)

  datatype DescriptorPtr = DescriptorPtr(block: nat, descriptor: nat)

  datatype Resource = Resource(id: int, rtype: int, descriptorPtrs: seq<DescriptorPtr>)

  datatype Pcb = Pcb(
    pid: int,
    returnValue: int,
    status: Status,
    parent: Option<Ref>,
    children: seq<Link>,
    timer: Option<nat>,
    lastFd: int,
    descriptors: seq<Descriptor>,
    syscallNum: int,
    arg0: int,
    arg1: int,
    arg2: int,
    retval: int)

  const BLANK_PCB := Pcb(0, 0, Created, None, [], None, 0, [], 0, 0, 0, 0, 0)

  /** The PCB buffer. Blocks keep their contents when they are freed and handed out again. */
  type PcbTable = t: seq<Pcb> | |t| == MAX_NUM_PROCESSES
    witness seq(MAX_NUM_PROCESSES, i => BLANK_PCB)

  datatype Timer = Timer(block: nat, wake: int, pcb: Ref)

  datatype Item = Item(block: nat, value: int)

  datatype Queue = Queue(
    block: nat,
    id: int,
    capacity: int,
    size: int,
    items: seq<Item>,
    getters: seq<Link>,
    putters: seq<Link>)

  /** Who asked for a value, and where it is to be stored. */
  datatype Request = Request(pid: int, out: int)

  /** A plain unbounded FIFO channel: the values put so far and the requests made so far,
      both in order. The n-th request is answered with the n-th value. */
  datatype Chan = Chan(puts: seq<int>, gets: seq<Request>) {
    /** How many requests have been answered. */
    function Served(): nat {
      if |puts| <= |gets| then |puts| else |gets|
    }
  }

  datatype State = State(
    pcb: PcbTable,
    pcbPool: Pool<Ref, ()>,
    ptrPool: Pool<nat, Owner>,
    timerPool: Pool<nat, Ref>,
    bqPool: Pool<nat, int>,
    itemPool: Pool<nat, int>,
    initPcb: Ref,
    running: Option<Ref>,
    lastPid: int,
    ready: seq<Ref>,
    waiting: seq<Ref>,
    zombie: seq<Ref>,
    timers: seq<Timer>,
    time: int,
    queues: map<int, Queue>,
    mem: map<int, int>,           // user memory the kernel writes results to
    resPool: Pool<nat, Resource>,
    resList: seq<nat>,
    desPool: Pool<nat, Descriptor>,
    desPtrPool: Pool<nat, nat>,
    chans: map<int, Chan>         // history: the calls accepted on each queue since its creation
  )

  /** One atomic step of the system: a timer tick, or a system call of the running process. */
  datatype Op =
    | Tick
    | Preempt
    | Fork
    | Spawn(entry: int, arg: int)
    | Wait(pid: int, result: int)
    | Exit(value: int)
    | Sleep(cycles: int)
    | Create(id: int, capacity: int)
    | Delete(id: int)
    | Put(id: int, value: int)
    | Get(id: int, out: int)
    | Open(id: int, rtype: int, mode: int)
    | Close(fd: int)
    | Destroy(id: int)

  /** `m'` is `m` after `v` was stored at `addr`. Nothing is stored through a null pointer. */
  ghost predicate Stores(m: map<int, int>, m': map<int, int>, addr: int, v: int) {
    if addr == 0 then m' == m
    else
      && addr in m' && m'[addr] == v
      && forall a :: a != addr ==> (a in m' <==> a in m) && (a in m ==> m'[a] == m[a])
  }

  /** `*addr = v`, skipped for a null pointer. */
  function Write(mem: map<int, int>, addr: int, v: int): (m: map<int, int>)
    ensures Stores(mem, m, addr, v)
  {
    if addr == 0 then mem else mem[addr := v]
  }
}
