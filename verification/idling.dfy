/** An idle processor: only ticks can happen, and somebody runs again exactly if a timer is set,
    at the tick at which the first of them is due. */
module Idling {
  import opened Wrappers
  import opened KernelState
  import opened Syscalls
  import opened Invariants
  import opened Preservation
  import opened Steps
  import opened WakeUps

  function Ticking(n: nat): seq<Op> {
    if n == 0 then [] else [Tick] + Ticking(n - 1)
  }

  /** The time of the tick at which the first timer is found to have expired. */
  function FirstWake(s: State): int
    requires s.timers != []
  {
    if s.timers[0].wake <= s.time then s.time + 1 else s.timers[0].wake
  }

  lemma NothingHappens(s: State)
    requires s.running == None && s.ready == []
    requires s.timers == [] || s.time + 1 < s.timers[0].wake
    ensures Step(s, Tick) == s.(time := s.time + 1)
  {
  }

  lemma SomebodyWakes(s: State)
    requires CoreInv(s) && s.running == None && s.ready == []
    requires s.timers != [] && s.timers[0].wake <= s.time + 1
    ensures Step(s, Tick).running.Some?
  {
    hide CoreInv, WakeDue, Pending;
    var s1 := s.(time := s.time + 1);
    LaterKeeps(s);
    HeadCheckWakesAllDue(s1);
    assert Due(s1.timers, s1.time) != [];
    assert WakeDue(s1).ready != [];
  }

  lemma IdleIsQuiet(s: State)
    requires Inv(s) && s.running == None
    ensures s.ready == []
  {
  }

  lemma TickFirst(s: State, ops: seq<Op>)
    requires RunSafe(Step(s, Tick), ops)
    ensures RunSafe(s, [Tick] + ops) && Run(s, [Tick] + ops) == Run(Step(s, Tick), ops)
  {
    hide Step;
    assert ([Tick] + ops)[1..] == ops;
  }

  lemma NoTick(s: State)
    ensures RunSafe(s, []) && Run(s, []) == s
  {
  }

  /** The processor stays idle, with nothing but the time changing, until the first timer is
      due, and then somebody runs. */
  lemma {:induction false} IdleUntil(s: State, n: nat)
    requires Inv(s) && s.running == None && s.timers != [] && s.time + n <= FirstWake(s)
    ensures RunSafe(s, Ticking(n))
    ensures if s.time + n < FirstWake(s) then Run(s, Ticking(n)) == s.(time := s.time + n)
            else Run(s, Ticking(n)).running.Some?
    decreases n
  {
    hide Inv, Run, RunSafe, Step;
    if n == 0 {
      NoTick(s);
    } else {
      var s' := Step(s, Tick);
      IdleIsQuiet(s);
      StepKeeps(s, Tick);
      if s.timers[0].wake <= s.time + 1 {
        InvIsCore(s);
        SomebodyWakes(s);
        NoTick(s');
        TickFirst(s, []);
      } else {
        NothingHappens(s);
        IdleUntil(s', n - 1);
        TickFirst(s, Ticking(n - 1));
      }
    }
  }

  lemma InvIsCore(s: State)
    requires Inv(s)
    ensures CoreInv(s)
  {
  }

  lemma OnlyTicks(s: State, op: Op)
    requires Safe(s, op) && s.running == None
    ensures op == Tick
  {
  }

  lemma {:induction false} IdleForEver(s: State, ops: seq<Op>)
    requires Inv(s) && RunSafe(s, ops) && s.running == None && s.timers == []
    ensures Run(s, ops).running == None
    decreases |ops|
  {
    if ops != [] {
      hide Inv, Step, Safe;
      IdleIsQuiet(s);
      OnlyTicks(s, ops[0]);
      StepKeeps(s, ops[0]);
      NothingHappens(s);
      IdleForEver(Step(s, ops[0]), ops[1..]);
    }
  }

  /** Somebody can run again. */
  ghost predicate Recovers(s: State) {
    exists ops :: RunSafe(s, ops) && Run(s, ops).running.Some?
  }

  lemma RecoversExactly(s: State)
    requires Inv(s) && s.running == None
    ensures Recovers(s) <==> s.timers != []
  {
    hide Inv, Run, RunSafe, Ticking;
    if s.timers != [] {
      IdleUntil(s, FirstWake(s) - s.time);
    } else {
      forall ops | RunSafe(s, ops) ensures Run(s, ops).running == None { IdleForEver(s, ops); }
    }
  }
}
