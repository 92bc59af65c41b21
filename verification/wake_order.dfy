/** The order in which sleepers wake, over whole runs: by wake-up time, and in the order in
    which they went to sleep where the time is the same. */
module WakeOrder {
  import opened Wrappers
  import opened KernelState
  import opened Syscalls
  import opened Invariants
  import opened Scheduling
  import opened Bystanders
  import opened Preservation
  import opened Steps
  import opened WakeUps
  import opened Counting
  import opened Sleeping
  import opened TimerOrder

  // ---------- what steps do to the timer list ----------

  /** The timer that a sleep of `n` ticks sets. */
  function SleepTimer(s: State, n: int): Timer
    requires s.running.Some? && s.timerPool.free != []
  {
    Timer(s.timerPool.free[0], s.time + n, s.running.value)
  }

  lemma SleepSets(s: State)
    requires s.running.Some? && s.timerPool.free != [] && s.pcb[s.running.value].timer == None
    ensures DoSleep(s).timers == TimerInsert(s.timers, SleepTimer(s, s.pcb[s.running.value].arg0))
  {
    hide TimerInsert;
  }

  lemma CallTimers(s: State, op: Op)
    requires CoreInv(s) && s.running.Some? && !op.Tick? && HandlerSafe(s, op) && s.timerPool.free != []
    requires op.Sleep? ==> s.pcb[s.running.value].arg0 == op.cycles
    ensures Handler(s, op).timers == if op.Sleep? then TimerInsert(s.timers, SleepTimer(s, op.cycles)) else s.timers
  {
    hide CoreInv, TimerInsert;
    if op.Sleep? {
      hide DoSleep;
      RunningHasNoTimer(s);
      SleepSets(s);
    } else {
      hide Handler, HandlerSafe;
      if QueueCall(op) { QueueCallTimers(s, op); } else { OtherCallTimers(s, op); }
    }
  }

  /** A tick drops the timers that have expired, a sleep inserts one, and nothing else changes
      the list. */
  lemma StepTimers(s: State, op: Op)
    requires Inv(s) && Safe(s, op)
    ensures !op.Tick? ==> s.running.Some? && s.timerPool.free != []
    ensures Step(s, op).timers ==
      if op.Tick? then Pending(s.timers, s.time + 1)
      else if op.Sleep? then TimerInsert(s.timers, SleepTimer(s, op.cycles))
      else s.timers
  {
    hide CoreInv, WakeDue, Schedule, Handler, HandlerSafe, TimerInsert;
    if op.Tick? {
      LaterKeeps(s);
      HeadCheckWakesAllDue(s.(time := s.time + 1));
      ScheduleTimers(WakeDue(s.(time := s.time + 1)));
    } else {
      TimersNeverRunOut(s);
      TrapKeeps(s, op);
      CallTimers(Trap(s, op), op);
    }
  }

  lemma ScheduleTimers(s: State)
    ensures Schedule(s).timers == s.timers
  {
  }

  // ---------- the timer list as a stable sort ----------

  lemma {:induction false} PendingClass(ts: seq<Timer>, now: int, w: int)
    ensures Class(Pending(ts, now), w) == if w <= now then [] else Class(ts, w)
  {
    if ts != [] { PendingClass(ts[1..], now, w); }
  }

  /** In a sorted list the expired timers come first. */
  lemma {:induction false} DueFirst(ts: seq<Timer>, now: int) returns (k: nat)
    requires Sorted(ts)
    ensures k <= |ts| && Due(ts, now) == ts[..k] && Pending(ts, now) == ts[k..]
    ensures forall i :: 0 <= i < k ==> ts[i].wake <= now
    ensures forall i :: k <= i < |ts| ==> now < ts[i].wake
  {
    if ts == [] || now < ts[0].wake {
      NothingDue(ts, now);
      k := 0;
    } else {
      var j := DueFirst(ts[1..], now);
      k := j + 1;
      assert ts == [ts[0]] + ts[1..];
      assert forall i :: 1 <= i < |ts| ==> ts[i] == ts[1..][i - 1];
    }
  }

  /** Dropping expired timers and sorting stably commute. */
  lemma PendingOfSorted(h: seq<Timer>, now: int)
    ensures Pending(AddAll(h), now) == AddAll(Pending(h, now))
  {
    TimersAreStablySorted(h, AddAll(h));
    var k := DueFirst(AddAll(h), now);
    forall w ensures Class(Pending(AddAll(h), now), w) == Class(Pending(h, now), w) {
      PendingClass(AddAll(h), now, w);
      PendingClass(h, now, w);
      assert Class(AddAll(h), w) == Class(h, w);
    }
    TimersAreStablySorted(Pending(h, now), Pending(AddAll(h), now));
  }

  /** The timers set in a run and not yet expired, in the order in which they were set; `h` are
      those outstanding at its start. */
  function Outstanding(s: State, ops: seq<Op>, h: seq<Timer>): seq<Timer>
    requires RunSafe(s, ops)
    decreases |ops|
  {
    if ops == [] then h
    else
      var op := ops[0];
      var h1 :=
        if op.Tick? then Pending(h, s.time + 1)
        else if op.Sleep? && s.running.Some? && s.timerPool.free != [] then h + [SleepTimer(s, op.cycles)]
        else h;
      Outstanding(Step(s, op), ops[1..], h1)
  }

  lemma AddedLast(h: seq<Timer>, t: Timer)
    ensures AddAll(h + [t]) == TimerInsert(AddAll(h), t)
  {
    hide TimerInsert;
    assert (h + [t])[..|h|] == h;
  }

  /** The timer list stays the stable sort of the timers outstanding. */
  lemma {:induction false} TimersAreOutstanding(s: State, ops: seq<Op>, h: seq<Timer>)
    requires Inv(s) && RunSafe(s, ops) && s.timers == AddAll(h)
    ensures Run(s, ops).timers == AddAll(Outstanding(s, ops, h))
    decreases |ops|
  {
    hide Inv, Step, Safe, AddAll, TimerInsert, Pending;
    if ops != [] {
      var op := ops[0];
      StepKeeps(s, op);
      StepTimers(s, op);
      if op.Tick? {
        PendingOfSorted(h, s.time + 1);
        TimersAreOutstanding(Step(s, op), ops[1..], Pending(h, s.time + 1));
      } else if op.Sleep? {
        AddedLast(h, SleepTimer(s, op.cycles));
        TimersAreOutstanding(Step(s, op), ops[1..], h + [SleepTimer(s, op.cycles)]);
      } else {
        TimersAreOutstanding(Step(s, op), ops[1..], h);
      }
    }
  }

  // ---------- two sleepers ----------

  /** The timer of `p` is before that of `q`. */
  ghost predicate TimedBefore(ts: seq<Timer>, p: Ref, q: Ref) {
    exists i, j :: 0 <= i < j < |ts| && ts[i].pcb == p && ts[j].pcb == q
  }

  ghost predicate Queued(rs: seq<Ref>, p: Ref, q: Ref) {
    exists i, j :: 0 <= i < j < |rs| && rs[i] == p && rs[j] == q
  }

  /** `p` has the processor before `q`. */
  ghost predicate RunsFirst(s: State, p: Ref, q: Ref) {
    (s.running == Some(p) && q in s.ready) || Queued(s.ready, p, q)
  }

  /** `p` has been woken: alone, or together with `q` and before it. */
  ghost predicate WokenFirst(s: State, p: Ref, q: Ref) {
    && !HasTimer(s.timers, p) && Runnable(s, p)
    && (HasTimer(s.timers, q) || RunsFirst(s, p, q))
  }

  lemma InsertKeepsBefore(ts: seq<Timer>, k: nat, t: Timer, p: Ref, q: Ref)
    requires TimedBefore(ts, p, q) && k <= |ts|
    ensures TimedBefore(ts[..k] + [t] + ts[k..], p, q)
  {
    var i, j :| 0 <= i < j < |ts| && ts[i].pcb == p && ts[j].pcb == q;
    var ts' := ts[..k] + [t] + ts[k..];
    assert ts'[if i < k then i else i + 1] == ts[i] && ts'[if j < k then j else j + 1] == ts[j];
  }

  /** A timer is inserted behind every timer that expires no later. */
  lemma InsertedBehind(ts: seq<Timer>, t: Timer, p: Ref, w: int)
    requires Sorted(ts) && TimerSet(ts, p, w) && w <= t.wake
    ensures TimedBefore(TimerInsert(ts, t), p, t.pcb)
  {
    var i :| 0 <= i < |ts| && ts[i].pcb == p && ts[i].wake == w;
    var k := TimerPos(ts, t.wake);
    assert i < k;
    var ts' := TimerInsert(ts, t);
    assert ts'[i] == ts[i] && ts'[k] == t;
  }

  lemma SleepBehind(s: State, n: int, p: Ref, w: int)
    requires Inv(s) && s.running.Some? && Safe(s, Sleep(n))
    requires AsleepUntil(s, p, w) && w <= s.time + n
    ensures TimedBefore(Step(s, Sleep(n)).timers, p, s.running.value)
  {
    hide CoreInv, ChansInv, Step, Safe, TimerInsert, TimerSet;
    StepTimers(s, Sleep(n));
    SortedTimers(s);
    InsertedBehind(s.timers, SleepTimer(s, n), p, w);
  }

  lemma ScheduleFirst(s: State, p: Ref, q: Ref)
    requires Queued(s.ready, p, q)
    ensures RunsFirst(Schedule(s), p, q) && Runnable(Schedule(s), p)
  {
    var i, j :| 0 <= i < j < |s.ready| && s.ready[i] == p && s.ready[j] == q;
    var s' := Schedule(s);
    assert s'.running == Some(s.ready[0]);
    assert s.ready[1..] <= s'.ready by {
      if s.running != None { assert Yield(s).ready[1..] == s.ready[1..] + [s.running.value]; }
    }
    assert s'.ready[j - 1] == q;
    if i > 0 { assert s'.ready[i - 1] == p; }
  }

  lemma ScheduleOne(s: State, p: Ref)
    requires p in s.ready
    ensures Runnable(Schedule(s), p)
  {
    var i :| 0 <= i < |s.ready| && s.ready[i] == p;
    var s' := Schedule(s);
    assert s.ready[1..] <= s'.ready by {
      if s.running != None { assert Yield(s).ready[1..] == s.ready[1..] + [s.running.value]; }
    }
    if i > 0 { assert s'.ready[i - 1] == p; }
  }

  lemma OneTimerEach(ts: seq<Timer>, k: nat, p: Ref, i: nat)
    requires UniqueSleepers(ts) && i < k <= |ts| && ts[i].pcb == p
    ensures !HasTimer(ts[k..], p)
  {
    assert forall j :: 0 <= j < |ts[k..]| ==> ts[k..][j] == ts[k + j];
  }

  /** The wake loop keeps the order of two sleepers, or readies the first, ahead of the other. */
  lemma LoopOrder(ts: seq<Timer>, now: int, ready: seq<Ref>, p: Ref, q: Ref)
    requires Sorted(ts) && UniqueSleepers(ts) && TimedBefore(ts, p, q)
    ensures var rest, ready' := Pending(ts, now), ready + Sleepers(Due(ts, now));
      || TimedBefore(rest, p, q)
      || (!HasTimer(rest, p) && p in ready' && (HasTimer(rest, q) || Queued(ready', p, q)))
  {
    hide Pending, Due, Queued, HasTimer, Sorted, UniqueSleepers;
    var k := DueFirst(ts, now);
    var i, j :| 0 <= i < j < |ts| && ts[i].pcb == p && ts[j].pcb == q;
    if k <= i {
      assert ts[k..][i - k] == ts[i] && ts[k..][j - k] == ts[j];
    } else {
      OneTimerEach(ts, k, p, i);
      WokenInOrder(ready, ts[..k], i);
      if j < k { WokenPair(ready, ts[..k], i, j); } else { StillTimed(ts, k, j); }
    }
  }

  lemma TickOrder(s: State, p: Ref, q: Ref)
    requires CoreInv(s) && TimedBefore(s.timers, p, q)
    ensures TimedBefore(DoTick(s).timers, p, q) || WokenFirst(DoTick(s), p, q)
  {
    hide CoreInv, WakeDue, Schedule, Pending, Due, TimedBefore, RunsFirst, Runnable, HasTimer, Queued, Sleepers;
    var s1 := s.(time := s.time + 1);
    LaterKeeps(s);
    HeadCheckWakesAllDue(s1);
    SortedTimers(s);
    SleepersUnique(s);
    LoopOrder(s.timers, s1.time, s.ready, p, q);
    var s2 := WakeDue(s1);
    ScheduleTimers(s2);
    if p in s2.ready { ScheduleOne(s2, p); }
    if Queued(s2.ready, p, q) { ScheduleFirst(s2, p, q); }
  }

  lemma WokenInOrder(ready: seq<Ref>, due: seq<Timer>, i: nat)
    requires i < |due|
    ensures due[i].pcb in ready + Sleepers(due)
  {
    assert (ready + Sleepers(due))[|ready| + i] == due[i].pcb;
  }

  lemma WokenPair(ready: seq<Ref>, due: seq<Timer>, i: nat, j: nat)
    requires i < j < |due|
    ensures Queued(ready + Sleepers(due), due[i].pcb, due[j].pcb)
  {
    var rs := ready + Sleepers(due);
    assert rs[|ready| + i] == due[i].pcb && rs[|ready| + j] == due[j].pcb;
  }

  lemma StillTimed(ts: seq<Timer>, k: nat, j: nat)
    requires k <= j < |ts|
    ensures HasTimer(ts[k..], ts[j].pcb)
  {
    assert ts[k..][j - k] == ts[j];
  }

  /** While both sleep their order stays; only a tick ends the sleep of the first of them, and
      if it ends both, the first is ahead. */
  lemma StepOrder(s: State, op: Op, p: Ref, q: Ref)
    requires Inv(s) && Safe(s, op) && TimedBefore(s.timers, p, q)
    ensures TimedBefore(Step(s, op).timers, p, q) || (op.Tick? && WokenFirst(Step(s, op), p, q))
  {
    if op.Tick? {
      hide CoreInv, ChansInv, DoTick, TimedBefore, WokenFirst;
      TickOrder(s, p, q);
    } else {
      hide Inv, Step, Safe, TimedBefore, TimerPos;
      StepTimers(s, op);
      if op.Sleep? {
        var t := SleepTimer(s, op.cycles);
        InsertKeepsBefore(s.timers, TimerPos(s.timers, t.wake), t, p, q);
      }
    }
  }

  // ---------- whole runs ----------

  /** All through the run `p` and `q` sleep in this order, up to the tick, if the run gets that
      far, that wakes `p`, either alone or with `q` behind it. */
  ghost predicate WakesInOrder(s: State, ops: seq<Op>, p: Ref, q: Ref)
    requires RunSafe(s, ops)
    decreases |ops|
  {
    && TimedBefore(s.timers, p, q)
    && (ops == [] ||
        var s' := Step(s, ops[0]);
        WakesInOrder(s', ops[1..], p, q) || (ops[0].Tick? && WokenFirst(s', p, q)))
  }

  lemma {:induction false} RunOrder(s: State, ops: seq<Op>, p: Ref, q: Ref)
    requires Inv(s) && RunSafe(s, ops) && TimedBefore(s.timers, p, q)
    ensures WakesInOrder(s, ops, p, q)
    decreases |ops|
  {
    hide Inv, Step, Safe, TimedBefore, WokenFirst;
    if ops != [] {
      StepKeeps(s, ops[0]);
      StepOrder(s, ops[0], p, q);
      if TimedBefore(Step(s, ops[0]).timers, p, q) { RunOrder(Step(s, ops[0]), ops[1..], p, q); }
    }
  }
}
