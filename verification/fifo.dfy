/** The blocking queues seen from outside, over whole runs: the n-th accepted get on a queue
    receives the value of the n-th accepted put, whoever had to wait. */
module Fifo {
  import opened Wrappers
  import opened KernelState
  import opened Syscalls
  import opened Invariants
  import opened Blocking
  import opened Channels
  import opened Bystanders
  import opened Steps

  /** In every reachable state a queue holds exactly the accepted values that have not been
      delivered: first those in the buffer, then those of the blocked putters, in the order
      in which the puts were accepted. The blocked getters are the requests not answered. */
  lemma QueueHoldsTheRest(s: State, id: int)
    requires Reachable(s) && id in s.queues
    ensures id in s.chans
    ensures var q, c := s.queues[id], s.chans[id];
      && c.puts == c.puts[..c.Served()] + ItemValues(q.items) + PutValues(s.pcb, q.putters)
      && c.gets == c.gets[..c.Served()] + Requests(s.pcb, q.getters)
      && (q.items == [] || q.getters == [])
      && |q.items| == q.size <= q.capacity
  {
    hide ProcInv, StorageInv, PoolsInv, ResourcesInv, FdsInv, ItemValues, PutValues, Requests;
    ReachableInv(s);
    var c := s.chans[id];
    assert c.puts == c.puts[..c.Served()] + c.puts[c.Served()..];
    assert c.gets == c.gets[..c.Served()] + c.gets[c.Served()..];
  }

  /** The history of a queue only grows, and each time it serves one more request the step
      delivers the value of that turn. */
  ghost predicate Extends(s: State, s': State, c: Chan, c': Chan) {
    c.puts <= c'.puts && c.gets <= c'.gets && (c' == c || Delivers(s, s', c, c'))
  }

  lemma CallExtends(s: State, op: Op, id: int)
    requires Inv(s) && Safe(s, op) && !op.Tick? && id in s.queues && id in Step(s, op).queues
    requires QueueCall(op)
    ensures id in s.chans && id in Step(s, op).chans
    ensures Extends(s, Step(s, op), s.chans[id], Step(s, op).chans[id])
  {
    hide CoreInv, Matches, DoPut, DoGet, DoCreate, DoDelete, Answered, WorkConserving, Step, Safe, Delivers;
    StepOfCall(s, op);
    var t := Trap(s, op);
    TrapChans(s, op);
    if op.Put? || op.Get? {
      TransferExtends(s, op, id);
    } else {
      match op
      case Create(i, cap) => CreateOutcome(t, i, cap);
      case Delete(i) => DeleteOutcome(t, i);
    }
  }

  lemma TransferExtends(s: State, op: Op, id: int)
    requires s.running.Some? && (op.Put? || op.Get?)
    requires CoreInv(Trap(s, op)) && ChansInv(Trap(s, op))
    requires HandlerSafe(Trap(s, op), op) && id in s.queues
    ensures var after := Handler(Trap(s, op), op);
      var s' := after.(chans := Observe(s, op, after));
      && id in s.chans && id in s'.chans
      && Extends(s, s', s.chans[id], s'.chans[id])
  {
    hide CoreInv, Matches, DoPut, DoGet, Answered;
    var t := Trap(s, op);
    match op
    case Put(i, v) => PutOutcome(t, i, v);
    case Get(i, out) => GetOutcome(t, i);
  }

  lemma StepExtends(s: State, op: Op, id: int)
    requires Inv(s) && Safe(s, op) && id in s.queues && id in Step(s, op).queues
    ensures id in s.chans && id in Step(s, op).chans
    ensures Extends(s, Step(s, op), s.chans[id], Step(s, op).chans[id])
  {
    hide CoreInv, Matches, Handler, DoTick, Delivers, HandlerSafe;
    if op.Tick? {
      TickBystander(s);
    } else if QueueCall(op) {
      CallExtends(s, op, id);
    } else {
      TrapChans(s, op);
      OtherCallChans(Trap(s, op), op);
    }
  }

  /** A call on one queue leaves every other queue exactly as it was. */
  lemma OtherQueuesUntouched(s: State, op: Op, id: int)
    requires Safe(s, op) && s.running.Some? && QueueCall(op) && id in s.queues
    requires match op
      case Put(i, _) => i != id
      case Get(i, _) => i != id
      case Create(i, _) => i != id
      case Delete(i) => i != id
      case _ => true
    ensures id in Step(s, op).queues && Step(s, op).queues[id] == s.queues[id]
  {
    hide GiveItems, Observe;
    var t := Trap(s, op);
    assert t.queues == s.queues && t.pcb[t.running.value].arg0 != id;
    CallTouchesOne(t, op, id);
  }

  lemma CallTouchesOne(s: State, op: Op, id: int)
    requires s.running.Some? && QueueCall(op) && HandlerSafe(s, op)
    requires id in s.queues && s.pcb[s.running.value].arg0 != id
    ensures id in Handler(s, op).queues && Handler(s, op).queues[id] == s.queues[id]
  {
    hide GiveItems, DoPut, DoGet;
    match op
    case Put(_, _) => PutTouchesOne(s, id);
    case Get(_, _) => GetTouchesOne(s, id);
    case _ =>
  }

  lemma PickNextQueues(s: State, mark: bool)
    ensures PickNext(s, mark).queues == s.queues
  {
  }

  lemma PutTouchesOne(s: State, id: int)
    requires s.running.Some? && PutSafe(s) && id in s.queues && s.pcb[s.running.value].arg0 != id
    ensures id in DoPut(s).queues && DoPut(s).queues[id] == s.queues[id]
  {
    hide PickNext;
    if PutBlocks(s) { PickNextQueues(Joined(s, s.pcb[s.running.value].arg0, false), true); }
  }

  lemma GetTouchesOne(s: State, id: int)
    requires s.running.Some? && GetSafe(s) && id in s.queues && s.pcb[s.running.value].arg0 != id
    ensures id in DoGet(s).queues && DoGet(s).queues[id] == s.queues[id]
  {
    hide PickNext, Refill;
    var i := s.pcb[s.running.value].arg0;
    if GetBlocks(s) { PickNextQueues(Joined(s, i, true), true); }
    if i in s.queues && s.queues[i].items != [] {
      RefillTouchesOne(TakeItem(s, i, s.pcb[s.running.value].arg1), i, id);
    }
  }

  lemma RefillTouchesOne(s: State, i: int, id: int)
    requires i in s.queues && id in s.queues && id != i
    ensures id in Refill(s, i).queues && Refill(s, i).queues[id] == s.queues[id]
    ensures Refill(s, i).running == s.running
  {
  }

  // ---------- whole runs ----------

  /** Queue `id` exists all through the run. */
  ghost predicate Persists(s: State, ops: seq<Op>, id: int)
    requires RunSafe(s, ops)
    decreases |ops|
  {
    id in s.queues && (ops != [] ==> Persists(Step(s, ops[0]), ops[1..], id))
  }

  /** Some step of the run answers request `q` with `v`, as the n-th answer on queue `id`. */
  ghost predicate AnswersDuring(s: State, ops: seq<Op>, id: int, n: nat, q: Request, v: int)
    requires RunSafe(s, ops)
    decreases |ops|
  {
    ops != [] &&
    var s' := Step(s, ops[0]);
    || (&& id in s.chans && s.chans[id].Served() == n
        && id in s'.chans && s'.chans[id].Served() == n + 1
        && Stores(s.mem, s'.mem, q.out, v) && Answered(s', q))
    || AnswersDuring(s', ops[1..], id, n, q, v)
  }

  lemma {:induction false} HistoryGrows(s: State, ops: seq<Op>, id: int)
    requires Inv(s) && RunSafe(s, ops) && Persists(s, ops, id)
    ensures id in s.chans && id in Run(s, ops).chans
    ensures s.chans[id].puts <= Run(s, ops).chans[id].puts
    ensures s.chans[id].gets <= Run(s, ops).chans[id].gets
    decreases |ops|
  {
    hide CoreInv, Step, Matches, Delivers;
    if ops != [] {
      StepKeeps(s, ops[0]);
      StepExtends(s, ops[0], id);
      HistoryGrows(Step(s, ops[0]), ops[1..], id);
    }
  }

  /** Over any run, each request answered on the queue is the n-th accepted one for some n,
      and what is written to the place it named is the n-th value accepted. */
  lemma {:induction false} NthGetReceivesNthPut(s: State, ops: seq<Op>, id: int, n: nat)
    requires Inv(s) && RunSafe(s, ops) && Persists(s, ops, id)
    requires id in s.chans && id in Run(s, ops).chans
    requires s.chans[id].Served() <= n < Run(s, ops).chans[id].Served()
    ensures var c := Run(s, ops).chans[id];
      AnswersDuring(s, ops, id, n, c.gets[n], c.puts[n])
    decreases |ops|
  {
    hide CoreInv, Step, Matches, Answered;
    if ops != [] {
      var s1 := Step(s, ops[0]);
      StepKeeps(s, ops[0]);
      StepExtends(s, ops[0], id);
      HistoryGrows(s1, ops[1..], id);
      if s1.chans[id].Served() <= n {
        NthGetReceivesNthPut(s1, ops[1..], id, n);
      }
    }
  }
}
