/** Entering and leaving the kernel, dispatching, and joining the waiting list. */
module Scheduling {
  import opened Wrappers
  import opened Seqs
  import opened KernelState
  import opened Syscalls
  import opened Invariants
  import opened Frames

  lemma TrapQuiet(s: State, op: Op)
    requires ListsInv(s) && s.running.Some? && !op.Tick?
    ensures Quiet(s, Trap(s, op)) && ListsInv(Trap(s, op))
  {
  }

  lemma TrapKeeps(s: State, op: Op)
    requires CoreInv(s) && s.running.Some? && !op.Tick?
    ensures CoreInv(Trap(s, op))
  {
    TrapQuiet(s, op);
    FrameQuiet(s, Trap(s, op));
  }

  lemma ReturnQuiet(s: State, v: int)
    requires ListsInv(s) && s.running.Some?
    ensures Quiet(s, Return(s, v)) && ListsInv(Return(s, v))
  {
  }

  lemma ReturnKeeps(s: State, v: int)
    requires CoreInv(s) && s.running.Some?
    ensures CoreInv(Return(s, v))
  {
    ReturnQuiet(s, v);
    FrameQuiet(s, Return(s, v));
  }

  lemma HeadLeaves(xs: seq<Ref>)
    requires NoDup(xs) && xs != []
    ensures xs[0] in xs && NoDup(xs[1..])
    ensures forall x :: x in xs[1..] <==> x in xs && x != xs[0]
  {
    assert xs == [xs[0]] + xs[1..];
  }

  lemma PickNextQuiet(s: State, mark: bool)
    requires ListsInv(s) && s.running == None
    ensures Quiet(s, PickNext(s, mark)) && ListsInv(PickNext(s, mark))
    ensures WorkConserving(PickNext(s, mark))
  {
    hide Quiet, ListsInv, WorkConserving, PickNext;
    PickNextFrame(s, mark);
    PickNextLists(s, mark);
  }

  lemma PickNextFrame(s: State, mark: bool)
    requires ListsInv(s)
    ensures Quiet(s, PickNext(s, mark))
  {
    assert s.ready != [] ==> s.ready[0] in s.ready;
  }

  lemma PickNextLists(s: State, mark: bool)
    requires ListsInv(s) && s.running == None
    ensures ListsInv(PickNext(s, mark)) && WorkConserving(PickNext(s, mark))
  {
    if s.ready != [] { HeadLeaves(s.ready); }
  }

  lemma PickNextKeeps(s: State, mark: bool)
    requires CoreInv(s) && s.running == None
    ensures CoreInv(PickNext(s, mark)) && WorkConserving(PickNext(s, mark))
  {
    PickNextQuiet(s, mark);
    FrameQuiet(s, PickNext(s, mark));
  }

  lemma YieldQuiet(s: State)
    requires ListsInv(s) && s.running.Some?
    ensures Quiet(s, Yield(s)) && ListsInv(Yield(s))
  {
  }

  lemma ScheduleQuiet(s: State)
    requires ListsInv(s)
    ensures Quiet(s, Schedule(s)) && ListsInv(Schedule(s))
    ensures WorkConserving(Schedule(s))
  {
    if s.ready != [] {
      if s.running == None {
        PickNextQuiet(s, true);
      } else {
        YieldQuiet(s);
        PickNextQuiet(Yield(s), true);
      }
    }
  }

  lemma ScheduleKeeps(s: State)
    requires CoreInv(s)
    ensures CoreInv(Schedule(s)) && WorkConserving(Schedule(s))
  {
    ScheduleQuiet(s);
    FrameQuiet(s, Schedule(s));
  }

  /** What joining the waiting list does to the lists, whatever the reason. */
  lemma ParkLists(s: State)
    requires ListsInv(s) && s.running.Some?
    ensures ListsInv(Park(s))
  {
    var r := s.running.value;
    assert r !in s.waiting;
  }

  lemma WakeLists(s: State, p: Ref)
    requires ListsInv(s) && p in s.waiting
    ensures ListsInv(WakeReady(s, p))
  {
    RemoveNoDup(s.waiting, p);
    assert p !in s.ready;
  }
}
