/** Who wakes up, when, and why: every step wakes exactly the processes whose reason to wait
    it removes. */
module WakeUps {
  import opened Wrappers
  import opened Seqs
  import opened KernelState
  import opened Syscalls
  import opened Invariants
  import opened Frames
  import opened Scheduling
  import opened Waking
  import opened Family
  import opened Bystanders
  import opened Preservation

  // ---------- the timer list ----------

  /** The timers that have expired by `now`, in the order of the list. */
  function Due(ts: seq<Timer>, now: int): seq<Timer> {
    if ts == [] then []
    else if ts[0].wake <= now then [ts[0]] + Due(ts[1..], now)
    else Due(ts[1..], now)
  }

  /** The timers that have not. */
  function Pending(ts: seq<Timer>, now: int): seq<Timer> {
    if ts == [] then []
    else if ts[0].wake <= now then Pending(ts[1..], now)
    else [ts[0]] + Pending(ts[1..], now)
  }

  function Sleepers(ts: seq<Timer>): (rs: seq<Ref>)
    ensures |rs| == |ts|
  {
    seq(|ts|, i requires 0 <= i < |ts| => ts[i].pcb)
  }

  lemma {:induction false} NothingDue(ts: seq<Timer>, now: int)
    requires Sorted(ts) && (ts != [] ==> now < ts[0].wake)
    ensures Due(ts, now) == [] && Pending(ts, now) == ts
  {
    if ts != [] {
      NothingDue(ts[1..], now);
    }
  }

  ghost predicate HasDue(ts: seq<Timer>, now: int, p: Ref) {
    exists i :: 0 <= i < |ts| && ts[i].pcb == p && ts[i].wake <= now
  }

  lemma HasDueTail(ts: seq<Timer>, now: int, p: Ref)
    requires ts != []
    ensures HasDue(ts, now, p) <==> (ts[0].pcb == p && ts[0].wake <= now) || HasDue(ts[1..], now, p)
  {
    if HasDue(ts, now, p) && !(ts[0].pcb == p && ts[0].wake <= now) {
      var i :| 0 <= i < |ts| && ts[i].pcb == p && ts[i].wake <= now;
      assert ts[1..][i - 1] == ts[i];
    }
    if HasDue(ts[1..], now, p) {
      var i :| 0 <= i < |ts[1..]| && ts[1..][i].pcb == p && ts[1..][i].wake <= now;
      assert ts[i + 1] == ts[1..][i];
    }
  }

  /** What waking one process after the other adds up to. */
  ghost predicate WokenAll(s: State, s': State) {
    && s'.timers == Pending(s.timers, s.time)
    && s'.ready == s.ready + Sleepers(Due(s.timers, s.time))
    && s'.time == s.time && s'.running == s.running
    && forall p: Ref :: p in s'.waiting <==> p in s.waiting && !HasDue(s.timers, s.time, p)
  }

  /** Looking at the head of the list only wakes all timers that are due and no other, in
      the order of their wake-up times. */
  lemma {:induction false} HeadCheckWakesAllDue(s: State)
    requires CoreInv(s)
    ensures WokenAll(s, WakeDue(s))
    decreases |s.timers|
  {
    if s.timers == [] || s.time < s.timers[0].wake {
      SortedTimers(s);
      NothingDue(s.timers, s.time);
      assert Sleepers([]) == [];
      forall p: Ref ensures !HasDue(s.timers, s.time, p) {
        if s.timers != [] { LaterTimers(s.timers, s.time, p); }
      }
    } else {
      var s1 := WakeFirst(s);
      FirstAwake(s);
      WakeFirstKeeps(s);
      HeadCheckWakesAllDue(s1);
      WokenFirstThenAll(s, s1, WakeDue(s));
    }
  }

  lemma SortedTimers(s: State)
    requires CoreInv(s)
    ensures Sorted(s.timers)
  {
  }

  lemma LaterTimers(ts: seq<Timer>, now: int, p: Ref)
    requires Sorted(ts) && ts != [] && now < ts[0].wake
    ensures !HasDue(ts, now, p)
  {
  }

  lemma FirstAwake(s: State)
    requires CoreInv(s) && s.timers != []
    ensures var s1 := WakeFirst(s);
      && s1.timers == s.timers[1..] && s1.ready == s.ready + [s.timers[0].pcb]
      && s1.time == s.time && s1.running == s.running
      && forall p: Ref :: p in s1.waiting <==> p in s.waiting && p != s.timers[0].pcb
  {
    FirstTimer(s);
    RemoveNoDup(s.waiting, s.timers[0].pcb);
  }

  lemma WokenFirstThenAll(s: State, s1: State, s2: State)
    requires s.timers != [] && s.timers[0].wake <= s.time
    requires s1.timers == s.timers[1..] && s1.ready == s.ready + [s.timers[0].pcb]
    requires s1.time == s.time && s1.running == s.running
    requires forall p: Ref :: p in s1.waiting <==> p in s.waiting && p != s.timers[0].pcb
    requires WokenAll(s1, s2)
    ensures WokenAll(s, s2)
  {
    var due := Due(s.timers[1..], s.time);
    assert Sleepers([s.timers[0]] + due) == [s.timers[0].pcb] + Sleepers(due);
    forall p: Ref
      ensures p in s2.waiting <==> p in s.waiting && !HasDue(s.timers, s.time, p)
    {
      HasDueTail(s.timers, s.time, p);
    }
  }

  // ---------- who is woken by a step ----------

  /** The event that ends the wait of `p`. */
  ghost predicate Woken(s: State, op: Op, p: Ref) {
    match op
    case Tick => HasDue(s.timers, s.time + 1, p)
    case Put(id, _) => id in s.queues && s.queues[id].getters != [] && s.queues[id].getters[0].pcb == p
    case Get(id, _) =>
      && id in s.queues && s.queues[id].items != []
      && s.queues[id].putters != [] && s.queues[id].putters[0].pcb == p
    case Exit(_) => s.running.Some? && ParentAwaits(s, s.running.value) && s.pcb[s.running.value].parent == Some(p)
    case _ => false
  }

  /** Of the processes waiting in `s`, exactly `p`, or nobody, is no longer waiting. */
  ghost predicate WaitsOn(s: State, s': State, woken: Option<Ref>) {
    forall p: Ref :: p in s.waiting ==> (p in s'.waiting <==> woken != Some(p))
  }

  lemma PutWakes(s: State)
    requires ListsInv(s) && s.running.Some? && PutSafe(s)
    ensures var id := s.pcb[s.running.value].arg0;
      WaitsOn(s, DoPut(s), if id in s.queues && s.queues[id].getters != []
                           then Some(s.queues[id].getters[0].pcb) else None)
  {
    var id := s.pcb[s.running.value].arg0;
    if id in s.queues && s.queues[id].getters != [] {
      RemoveNoDup(s.waiting, s.queues[id].getters[0].pcb);
    }
  }

  lemma GetWakes(s: State)
    requires ListsInv(s) && s.running.Some? && GetSafe(s)
    requires s.pcb[s.running.value].arg0 in s.queues ==> QueueOk(s.queues[s.pcb[s.running.value].arg0])
    ensures var id := s.pcb[s.running.value].arg0;
      WaitsOn(s, DoGet(s), if id in s.queues && s.queues[id].items != [] && s.queues[id].putters != []
                           then Some(s.queues[id].putters[0].pcb) else None)
  {
    var id := s.pcb[s.running.value].arg0;
    if id in s.queues && s.queues[id].putters != [] {
      RemoveNoDup(s.waiting, s.queues[id].putters[0].pcb);
    }
  }

  /** Handing children over to init changes neither statuses nor calls nor pids. */
  ghost predicate SameStanding(s: State, s': State) {
    forall x: Ref ::
      && s'.pcb[x].status == s.pcb[x].status && s'.pcb[x].syscallNum == s.pcb[x].syscallNum
      && s'.pcb[x].arg0 == s.pcb[x].arg0 && s'.pcb[x].pid == s.pcb[x].pid
  }

  lemma ReparentHead(s: State, r: Ref)
    requires CoreInv(s) && Live(s, r) && r != s.initPcb && s.pcb[r].children != []
    ensures Reparented(s, ReparentOne(s, r), r, s.pcb[r].children[0])
  {
    ReparentOneIs(s, r);
  }

  lemma {:induction false} ReparentStanding(s: State, r: Ref)
    requires CoreInv(s) && Live(s, r) && r != s.initPcb
    ensures SameStanding(s, ReparentAll(s, r))
    ensures ReparentAll(s, r).pcb[r].parent == s.pcb[r].parent
    decreases |s.pcb[r].children|
  {
    hide CoreInv;
    if s.pcb[r].children != [] {
      ReparentHead(s, r);
      ReparentOneKeeps(s, r);
      ReparentStanding(ReparentOne(s, r), r);
    }
  }

  lemma AdoptStanding(s: State)
    requires CoreInv(s) && s.running.Some? && ExitSafe(s)
    ensures SameStanding(s, Adopt(s))
    ensures Adopt(s).pcb[s.running.value].parent == s.pcb[s.running.value].parent
  {
    hide CoreInv;
    var r := s.running.value;
    var s1 := SetPcb(s, r, s.pcb[r].(returnValue := s.pcb[r].arg0));
    ReturnValueKeeps(s);
    if r != s.initPcb { ReparentStanding(s1, r); }
  }

  lemma ReturnValueKeeps(s: State)
    requires CoreInv(s) && s.running.Some?
    ensures var r := s.running.value;
      CoreInv(SetPcb(s, r, s.pcb[r].(returnValue := s.pcb[r].arg0))) && Live(s, r)
  {
    ReturnValueQuiet(s);
    FrameQuiet(s, SetPcb(s, s.running.value, s.pcb[s.running.value].(returnValue := s.pcb[s.running.value].arg0)));
  }

  lemma BuriedParentAwaits(s: State, s1: State, r: Ref)
    requires SameStanding(s, s1) && s1.pcb[r].parent == s.pcb[r].parent && s.pcb[r].parent != Some(r)
    ensures ParentAwaits(Bury(s1, r), r) == ParentAwaits(s, r)
  {
  }

  lemma ExitWakes(s: State)
    requires CoreInv(s) && s.running.Some? && ExitSafe(s)
    ensures WaitsOn(s, DoExit(s), if ParentAwaits(s, s.running.value) then s.pcb[s.running.value].parent else None)
  {
    hide CoreInv, Adopt;
    var r := s.running.value;
    AdoptStanding(s);
    AdoptKeeps(s);
    ExitParent(s);
    BuriedParentAwaits(s, Adopt(s), r);
    WaitingNoDup(s);
    if ParentAwaits(s, r) {
      RemoveNoDup(s.waiting, s.pcb[r].parent.value);
    }
  }

  lemma WaitingNoDup(s: State)
    requires CoreInv(s)
    ensures NoDup(s.waiting)
  {
  }

  lemma ExitParent(s: State)
    requires CoreInv(s) && s.running.Some?
    ensures s.pcb[s.running.value].parent != Some(s.running.value)
  {
    AwaitingParent(s, s.running.value);
  }

  lemma TickWakes(s: State)
    requires CoreInv(s)
    ensures forall p: Ref :: p in s.waiting ==> (p in DoTick(s).waiting <==> !HasDue(s.timers, s.time + 1, p))
  {
    hide CoreInv, WakeDue, HasDue;
    var s1 := s.(time := s.time + 1);
    LaterKeeps(s);
    HeadCheckWakesAllDue(s1);
  }

  /** The calls that wake nobody. */
  predicate Silent(op: Op) {
    !op.Tick? && !op.Put? && !op.Get? && !op.Exit?
  }

  lemma UnlinkWaiting(s: State)
    ensures forall r: Ref, pid, z: seq<Ref> :: Unlink(s.(zombie := z), r, pid).waiting == s.waiting
    ensures forall r: Ref, pid, z: seq<Ref> :: Unlink(s.(zombie := z), r, pid).running == s.running
  {
  }

  lemma SilentWakes(s: State, op: Op)
    requires s.running.Some? && Silent(op) && HandlerSafe(s, op)
    ensures WaitsOn(s, Handler(s, op), None)
  {
    hide TimerInsert, FreshPcb, Unlink, DoOpen, DoClose, GiveItems;
    match op
    case Wait(_, _) => UnlinkWaiting(s);
    case Open(_, _, _) => OpenBystander(s);
    case Close(_) => CloseBystander(s);
    case _ =>
  }

  // ---------- the theorems ----------

  lemma TrapWoken(s: State, op: Op, p: Ref)
    requires CoreInv(s) && s.running.Some? && !op.Tick?
    ensures Woken(s, op, p) == Woken(Trap(s, op), op, p)
    ensures Trap(s, op).waiting == s.waiting && Trap(s, op).running == s.running
  {
    ExitParent(s);
  }

  /** A step ends the wait of `p` if and only if it is the event `p` waits for. */
  lemma WakesExactly(s: State, op: Op, p: Ref)
    requires Inv(s) && Safe(s, op) && p in s.waiting
    ensures p !in Step(s, op).waiting <==> Woken(s, op, p)
  {
    hide CoreInv, Handler, DoTick, HasDue;
    if op.Tick? {
      TickWakes(s);
    } else {
      var t := Trap(s, op);
      TrapKeeps(s, op);
      TrapWoken(s, op, p);
      HandlerWakes(t, op, p);
    }
  }

  lemma HandlerWakes(s: State, op: Op, p: Ref)
    requires CoreInv(s) && s.running.Some? && !op.Tick? && HandlerSafe(s, op) && p in s.waiting
    requires s.pcb[s.running.value] == WithArgs(s.pcb[s.running.value], op)
    ensures p !in Handler(s, op).waiting <==> Woken(s, op, p)
  {
    hide CoreInv, DoPut, DoGet, DoExit, ParentAwaits;
    if Silent(op) {
      SilentWakes(s, op);
    } else if op.Exit? {
      ExitWakes(s);
    } else {
      QueueCallFacts(s);
      if op.Put? { PutWakes(s); } else { GetWakes(s); }
    }
  }

  lemma QueueCallFacts(s: State)
    requires CoreInv(s)
    ensures ListsInv(s)
    ensures forall id :: id in s.queues ==> QueueOk(s.queues[id])
  {
  }

  /** A process that waits has exactly one event to wait for, told by the call it made. */
  lemma OneReason(s: State, op: Op, p: Ref)
    requires Inv(s) && p in s.waiting && Woken(s, op, p)
    ensures match op
      case Tick => s.pcb[p].syscallNum == CALL_SLEEP
      case Put(id, _) => s.pcb[p].syscallNum == CALL_GET && s.pcb[p].arg0 == id
      case Get(id, _) => s.pcb[p].syscallNum == CALL_PUT && s.pcb[p].arg0 == id
      case Exit(_) => s.pcb[p].syscallNum == CALL_WAIT
      case _ => false
  {
    match op
    case Put(id, _) => HeadWaiterBlocked(s, id, true);
    case Get(id, _) => HeadWaiterBlocked(s, id, false);
    case _ =>
  }
}
