/** A process that sleeps n ticks at time t is woken by the tick that makes it t + n, and by
    no earlier one; a sleep of no ticks ends with the next tick. */
module Sleeping {
  import opened Wrappers
  import opened KernelState
  import opened Syscalls
  import opened Invariants
  import opened Scheduling
  import opened Bystanders
  import opened Preservation
  import opened Steps
  import opened WakeUps
  import opened Counting

  ghost predicate TimerSet(ts: seq<Timer>, p: Ref, wake: int) {
    exists i :: 0 <= i < |ts| && ts[i].pcb == p && ts[i].wake == wake
  }

  ghost predicate AsleepUntil(s: State, p: Ref, wake: int) {
    p in s.waiting && TimerSet(s.timers, p, wake)
  }

  /** `p` can be dispatched, or has been. */
  ghost predicate Runnable(s: State, p: Ref) {
    p in s.ready || s.running == Some(p)
  }

  // ---------- timers of other processes stay ----------

  lemma TimerSetInsert(ts: seq<Timer>, t: Timer, p: Ref, wake: int)
    ensures TimerSet(ts, p, wake) ==> TimerSet(TimerInsert(ts, t), p, wake)
    ensures TimerSet(TimerInsert(ts, t), t.pcb, t.wake)
  {
    var i := TimerPos(ts, t.wake);
    assert TimerInsert(ts, t)[i] == t;
    if TimerSet(ts, p, wake) {
      var k :| 0 <= k < |ts| && ts[k].pcb == p && ts[k].wake == wake;
      assert TimerInsert(ts, t)[if k < i then k else k + 1] == ts[k];
    }
  }

  lemma {:induction false} TimerSetPending(ts: seq<Timer>, now: int, p: Ref, wake: int)
    requires TimerSet(ts, p, wake) && now < wake
    ensures TimerSet(Pending(ts, now), p, wake)
  {
    var k :| 0 <= k < |ts| && ts[k].pcb == p && ts[k].wake == wake;
    if k == 0 {
      assert Pending(ts, now)[0] == ts[0];
    } else {
      assert ts[1..][k - 1] == ts[k];
      TimerSetPending(ts[1..], now, p, wake);
      if now < ts[0].wake {
        var rest := Pending(ts[1..], now);
        var j :| 0 <= j < |rest| && rest[j].pcb == p && rest[j].wake == wake;
        assert Pending(ts, now)[j + 1] == rest[j];
      }
    }
  }

  /** A process has one timer, so its wake-up time is no other. */
  lemma OneTimer(ts: seq<Timer>, now: int, p: Ref, wake: int)
    requires UniqueSleepers(ts) && TimerSet(ts, p, wake)
    ensures HasDue(ts, now, p) <==> wake <= now
  {
  }

  lemma {:induction false} DueSleeper(ts: seq<Timer>, now: int, p: Ref)
    requires HasDue(ts, now, p)
    ensures p in Sleepers(Due(ts, now))
  {
    HasDueTail(ts, now, p);
    if ts[0].pcb == p && ts[0].wake <= now {
      assert Sleepers(Due(ts, now))[0] == p;
    } else {
      DueSleeper(ts[1..], now, p);
      if ts[0].wake <= now {
        var k :| 0 <= k < |Sleepers(Due(ts[1..], now))| && Sleepers(Due(ts[1..], now))[k] == p;
        assert Sleepers(Due(ts, now))[k + 1] == p;
      }
    }
  }

  ghost predicate SameTimers(s: State, s': State) {
    s'.timers == s.timers && s'.time == s.time
  }

  lemma UnlinkTimers(s: State)
    ensures forall r: Ref, pid, z: seq<Ref> ::
      var s1 := Unlink(s.(zombie := z), r, pid); SameTimers(s, s1) && s1.running == s.running
  {
  }

  lemma QueueCallTimers(s: State, op: Op)
    requires s.running.Some? && QueueCall(op) && HandlerSafe(s, op)
    ensures SameTimers(s, Handler(s, op))
  {
    hide GiveItems, DoPut, DoGet;
    match op
    case Put(_, _) => PutTimers(s);
    case Get(_, _) => GetTimers(s);
    case _ =>
  }

  lemma PutTimers(s: State)
    requires s.running.Some? && PutSafe(s)
    ensures SameTimers(s, DoPut(s))
  {
  }

  lemma GetTimers(s: State)
    requires s.running.Some? && GetSafe(s)
    ensures SameTimers(s, DoGet(s))
  {
  }

  lemma SleepTimers(s: State)
    requires s.running.Some?
    ensures DoSleep(s).time == s.time
    ensures forall p: Ref, wake :: TimerSet(s.timers, p, wake) ==> TimerSet(DoSleep(s).timers, p, wake)
  {
    hide TimerInsert, TimerSet;
    if s.timerPool.free != [] {
      var t := Timer(s.timerPool.free[0], s.time + s.pcb[s.running.value].arg0, s.running.value);
      forall p: Ref, wake | TimerSet(s.timers, p, wake)
        ensures TimerSet(DoSleep(s).timers, p, wake)
      {
        TimerSetInsert(s.timers, t, p, wake);
      }
    }
  }

  lemma OtherCallTimers(s: State, op: Op)
    requires s.running.Some? && !op.Tick? && !QueueCall(op) && !op.Sleep? && HandlerSafe(s, op)
    ensures SameTimers(s, Handler(s, op))
  {
    hide FreshPcb, Unlink, DoOpen, DoClose, DoDestroy, Adopt, ParentAwaits;
    match op
    case Wait(_, _) => UnlinkTimers(s);
    case Exit(_) => AdoptBystander(s);
    case Open(_, _, _) => OpenBystander(s);
    case Close(_) => CloseBystander(s);
    case Destroy(_) => DestroyBystander(s);
    case _ =>
  }

  /** No system call takes a timer away or moves the clock. */
  lemma HandlerTimers(s: State, op: Op)
    requires s.running.Some? && !op.Tick? && HandlerSafe(s, op)
    ensures Handler(s, op).time == s.time
    ensures forall p: Ref, wake :: TimerSet(s.timers, p, wake) ==> TimerSet(Handler(s, op).timers, p, wake)
  {
    if op.Sleep? {
      hide DoSleep, TimerSet;
      SleepTimers(s);
    } else {
      hide Handler, TimerSet;
      if QueueCall(op) { QueueCallTimers(s, op); } else { OtherCallTimers(s, op); }
    }
  }

  lemma ScheduleRunnable(s: State, p: Ref)
    requires ListsInv(s) && Runnable(s, p)
    ensures Runnable(Schedule(s), p)
  {
    if s.ready != [] {
      HeadLeaves(s.ready);
      if s.running != None {
        assert Yield(s).ready == s.ready + [s.running.value];
        assert Schedule(s).ready == s.ready[1..] + [s.running.value];
      }
    }
  }

  /** A tick wakes `p` if its time has come, and otherwise leaves it asleep. */
  lemma TickSleeper(s: State, p: Ref, wake: int)
    requires CoreInv(s) && AsleepUntil(s, p, wake)
    ensures var s' := DoTick(s);
      if wake <= s.time + 1 then p !in s'.waiting && Runnable(s', p) else AsleepUntil(s', p, wake)
  {
    hide CoreInv, WakeDue, HasDue, TimerSet, Schedule;
    var s1 := s.(time := s.time + 1);
    LaterKeeps(s);
    HeadCheckWakesAllDue(s1);
    WakeDueKeeps(s1);
    SleepersUnique(s);
    OneTimer(s.timers, s.time + 1, p, wake);
    ScheduleLists(WakeDue(s1));
    if wake <= s.time + 1 {
      DueSleeper(s.timers, s.time + 1, p);
      ScheduleRunnable(WakeDue(s1), p);
    } else {
      TimerSetPending(s.timers, s.time + 1, p, wake);
    }
  }

  lemma SleepersUnique(s: State)
    requires CoreInv(s)
    ensures UniqueSleepers(s.timers)
  {
  }

  lemma ScheduleLists(s: State)
    requires CoreInv(s)
    ensures ListsInv(s)
    ensures Schedule(s).waiting == s.waiting && Schedule(s).timers == s.timers && Schedule(s).time == s.time
  {
  }

  lemma SleeperCall(s: State, p: Ref, wake: int)
    requires CoreInv(s) && AsleepUntil(s, p, wake)
    ensures s.pcb[p].syscallNum == CALL_SLEEP
  {
    var i :| 0 <= i < |s.timers| && s.timers[i].pcb == p && s.timers[i].wake == wake;
    assert s.timers[i] in s.timers;
  }

  /** Only a tick ends a sleep, and only when its time has come. */
  lemma StepSleeper(s: State, op: Op, p: Ref, wake: int)
    requires Inv(s) && Safe(s, op) && AsleepUntil(s, p, wake)
    ensures var s' := Step(s, op);
      && s'.time == (if op.Tick? then s.time + 1 else s.time)
      && if op.Tick? && wake <= s.time + 1 then p !in s'.waiting && Runnable(s', p) else AsleepUntil(s', p, wake)
  {
    hide CoreInv, Handler, DoTick, TimerSet, Woken;
    if op.Tick? {
      TickSleeper(s, p, wake);
      TickTime(s);
    } else {
      HandlerTimers(Trap(s, op), op);
      WakesExactly(s, op, p);
      SleeperCall(s, p, wake);
      if Woken(s, op, p) { OneReason(s, op, p); }
    }
  }

  lemma TickTime(s: State)
    requires CoreInv(s)
    ensures DoTick(s).time == s.time + 1
  {
    hide CoreInv, WakeDue;
    LaterKeeps(s);
    HeadCheckWakesAllDue(s.(time := s.time + 1));
  }

  lemma SleepCall(s: State)
    requires ListsInv(s) && s.running.Some? && s.timerPool.free != []
    requires s.pcb[s.running.value].timer == None
    ensures var r := s.running.value;
      && DoSleep(s).time == s.time
      && AsleepUntil(DoSleep(s), r, s.time + s.pcb[r].arg0)
  {
    hide TimerInsert, TimerSet;
    var r := s.running.value;
    TimerSetInsert(s.timers, Timer(s.timerPool.free[0], s.time + s.pcb[r].arg0, r), r, s.time + s.pcb[r].arg0);
  }

  lemma RunningHasNoTimer(s: State)
    requires CoreInv(s) && s.running.Some?
    ensures ListsInv(s) && s.pcb[s.running.value].timer == None
  {
  }

  /** sleep never fails: it always puts the caller to sleep until `n` ticks from now. */
  lemma SleepBegins(s: State, n: int)
    requires Inv(s) && s.running.Some?
    ensures Safe(s, Sleep(n))
    ensures var s' := Step(s, Sleep(n)); s'.time == s.time && AsleepUntil(s', s.running.value, s.time + n)
  {
    hide CoreInv, DoSleep, TimerSet;
    TimersNeverRunOut(s);
    TrapKeeps(s, Sleep(n));
    RunningHasNoTimer(Trap(s, Sleep(n)));
    SleepCall(Trap(s, Sleep(n)));
  }

  lemma {:induction false} SleepLasts(s: State, p: Ref, wake: int, ops: seq<Op>)
    requires Inv(s) && RunSafe(s, ops) && AsleepUntil(s, p, wake)
    ensures s.time <= Run(s, ops).time
    ensures Run(s, ops).time < wake || Run(s, ops).time == s.time ==> AsleepUntil(Run(s, ops), p, wake)
    decreases |ops|
  {
    hide Inv, Step, AsleepUntil;
    if ops != [] {
      StepKeeps(s, ops[0]);
      StepSleeper(s, ops[0], p, wake);
      RunTime(Step(s, ops[0]), ops[1..]);
      if !(ops[0].Tick? && wake <= s.time + 1) {
        SleepLasts(Step(s, ops[0]), p, wake, ops[1..]);
      }
    }
  }

  lemma StepTime(s: State, op: Op)
    requires Inv(s) && Safe(s, op)
    ensures Step(s, op).time == (if op.Tick? then s.time + 1 else s.time)
  {
    hide CoreInv, DoTick, Handler;
    if op.Tick? {
      TickTime(s);
    } else {
      HandlerTimers(Trap(s, op), op);
    }
  }

  lemma {:induction false} RunTime(s: State, ops: seq<Op>)
    requires Inv(s) && RunSafe(s, ops)
    ensures s.time <= Run(s, ops).time
    decreases |ops|
  {
    hide Inv, Step;
    if ops != [] {
      StepKeeps(s, ops[0]);
      StepTime(s, ops[0]);
      RunTime(Step(s, ops[0]), ops[1..]);
    }
  }

  /** The tick that wakes a process put to sleep at time `t` for `n` ticks. */
  function WakeTick(t: int, n: int): int {
    if n <= 1 then t + 1 else t + n
  }

  /** In any run after the call the sleeper sleeps on while the time is before `WakeTick`, and
      the tick that makes it that time makes the sleeper runnable. */
  lemma SleepsExactly(s: State, n: int, ops: seq<Op>)
    requires Inv(s) && s.running.Some? && Safe(s, Sleep(n)) && RunSafe(Step(s, Sleep(n)), ops)
    ensures var p := s.running.value;
      var s1 := Run(Step(s, Sleep(n)), ops);
      && (s1.time < WakeTick(s.time, n) ==> AsleepUntil(s1, p, s.time + n))
      && (s1.time == WakeTick(s.time, n) - 1 ==> p !in Step(s1, Tick).waiting && Runnable(Step(s1, Tick), p))
  {
    hide Inv, AsleepUntil, Step, Runnable, HandlerSafe, RunSafe, Run;
    var p := s.running.value;
    var s0 := Step(s, Sleep(n));
    SleepBegins(s, n);
    StepKeeps(s, Sleep(n));
    SleepLasts(s0, p, s.time + n, ops);
    RunKeeps(s0, ops);
    RunTime(s0, ops);
    var s1 := Run(s0, ops);
    if s1.time < WakeTick(s.time, n) {
      StepSleeper(s1, Tick, p, s.time + n);
    }
  }
}
