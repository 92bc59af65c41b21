/** The loop in which an exiting process hands its children over to init. */
module ExitLoop {
  import opened Wrappers
  import opened KernelState
  import opened Syscalls

  /** The list after its first `n` items went, one by one, from the front to the end. */
  function Rotated<T>(xs: seq<T>, n: nat): seq<T>
    decreases n
  {
    if n == 0 || xs == [] then xs else Rotated(xs[1..] + [xs[0]], n - 1)
  }

  lemma {:induction false} RotatedSize<T>(xs: seq<T>, n: nat)
    ensures |Rotated(xs, n)| == |xs|
    decreases n
  {
    if n > 0 && xs != [] { RotatedSize(xs[1..] + [xs[0]], n - 1); }
  }

  lemma {:induction false} RotatedIs<T>(xs: seq<T>, n: nat)
    requires n <= |xs|
    ensures Rotated(xs, n) == xs[n..] + xs[..n]
    decreases n
  {
    if n > 0 {
      var ys := xs[1..] + [xs[0]];
      RotatedIs(ys, n - 1);
      assert ys[n - 1..] + ys[..n - 1] == xs[n..] + xs[..n];
    }
  }

  /** Every turn of another process takes one child away. */
  lemma {:induction false} OthersFinish(s: State, r: Ref)
    requires r != s.initPcb
    ensures Turns(s, r, |s.pcb[r].children|) == ReparentAll(s, r)
    ensures ReparentAll(s, r).pcb[r].children == []
    decreases |s.pcb[r].children|
  {
    if s.pcb[r].children != [] { OthersFinish(ReparentOne(s, r), r); }
  }

  /** A turn of init takes its first child away and gives it back at the end. */
  lemma {:induction false} InitRotates(s: State, n: nat)
    ensures Turns(s, s.initPcb, n).pcb[s.initPcb].children == Rotated(s.pcb[s.initPcb].children, n)
    decreases n
  {
    if n > 0 && s.pcb[s.initPcb].children != [] { InitRotates(ReparentOne(s, s.initPcb), n - 1); }
  }

  /** The loop ends if and only if it is not run by init with children. */
  lemma LoopEndsExactly(s: State, r: Ref)
    ensures LoopEnds(s, r) <==> r != s.initPcb || s.pcb[r].children == []
  {
    hide Turns, ReparentAll;
    if r != s.initPcb {
      OthersFinish(s, r);
    } else {
      forall n ensures |Turns(s, r, n).pcb[r].children| == |s.pcb[r].children| {
        InitRotates(s, n);
        RotatedSize(s.pcb[r].children, n);
      }
      assert |Turns(s, r, 0).pcb[r].children| == |s.pcb[r].children|;
    }
  }

  lemma ExitSafeExactly(s: State)
    requires s.running.Some?
    ensures ExitSafe(s) <==> s.running.value != s.initPcb || s.pcb[s.initPcb].children == []
  {
    LoopEndsExactly(s, s.running.value);
  }

  /** The state in which an exiting process enters the loop. */
  function LoopStart(s: State, v: int): State
    requires s.running.Some?
  {
    var t := Trap(s, Exit(v));
    SetPcb(t, s.running.value, t.pcb[s.running.value].(returnValue := v))
  }

  function WithChildren(s: State, ls: seq<Link>): State {
    SetPcb(s, s.initPcb, s.pcb[s.initPcb].(children := ls))
  }

  lemma InitTurn(s: State, ls: seq<Link>)
    requires ls != [] && s.pcb[ls[0].pcb].parent == Some(s.initPcb) && ls[0].pcb != s.initPcb
    ensures ReparentOne(WithChildren(s, ls), s.initPcb) == WithChildren(s, ls[1..] + [ls[0]])
  {
  }

  lemma {:induction false} ChildrenTurn(s: State, ls: seq<Link>, n: nat)
    requires forall l :: l in ls ==> s.pcb[l.pcb].parent == Some(s.initPcb) && l.pcb != s.initPcb
    ensures Turns(WithChildren(s, ls), s.initPcb, n) == WithChildren(s, Rotated(ls, n))
    decreases n
  {
    if n > 0 && ls != [] {
      hide ReparentOne;
      assert ls[0] in ls;
      InitTurn(s, ls);
      ChildrenTurn(s, ls[1..] + [ls[0]], n - 1);
    }
  }

  /** When the children of init already point at it, a turn changes nothing but their order. */
  lemma InitTurns(s: State, n: nat)
    requires forall l :: l in s.pcb[s.initPcb].children ==>
      s.pcb[l.pcb].parent == Some(s.initPcb) && l.pcb != s.initPcb
    ensures Turns(s, s.initPcb, n) ==
      SetPcb(s, s.initPcb, s.pcb[s.initPcb].(children := Rotated(s.pcb[s.initPcb].children, n)))
  {
    hide Turns, Rotated;
    assert WithChildren(s, s.pcb[s.initPcb].children) == s;
    ChildrenTurn(s, s.pcb[s.initPcb].children, n);
  }

  /** Init is back in the very state in which it entered the loop after as many turns as it
      has children. */
  lemma InitComesBack(s: State)
    requires forall l :: l in s.pcb[s.initPcb].children ==>
      s.pcb[l.pcb].parent == Some(s.initPcb) && l.pcb != s.initPcb
    ensures Turns(s, s.initPcb, |s.pcb[s.initPcb].children|) == s
  {
    hide Turns, Rotated;
    var cs := s.pcb[s.initPcb].children;
    InitTurns(s, |cs|);
    RotatedIs(cs, |cs|);
    assert cs[|cs|..] + cs[..|cs|] == cs;
  }
}
