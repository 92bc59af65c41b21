/** The family tree in every reachable state, and the one wake-up that can get lost. */
module FamilyTree {
  import opened Wrappers
  import opened Seqs
  import opened KernelState
  import opened Syscalls
  import opened Invariants
  import opened ExitLoop
  import opened Scheduling
  import opened Family
  import opened Preservation
  import opened Steps
  import opened WakeUps

  // ---------- one place for each process, one tree for all ----------

  /** How often `r` occurs among the running process and the three lists. */
  ghost function Places(s: State, r: Ref): nat {
    multiset(s.ready)[r] + multiset(s.waiting)[r] + multiset(s.zombie)[r] + (if s.running == Some(r) then 1 else 0)
  }

  lemma NoDupOccurs(xs: seq<Ref>, x: Ref)
    requires NoDup(xs)
    ensures multiset(xs)[x] == if x in xs then 1 else 0
  {
    if x in xs {
      var i :| 0 <= i < |xs| && xs[i] == x;
      assert xs == xs[..i] + [x] + xs[i + 1..];
      assert x !in xs[..i] && x !in xs[i + 1..];
    }
  }

  /** Every process is in exactly one place, and its status tells which; a PCB that is not
      allocated is nowhere. */
  lemma OnePlaceEach(s: State, r: Ref)
    requires Reachable(s)
    ensures Places(s, r) == if Live(s, r) then 1 else 0
    ensures Live(s, r) ==>
      && (r in s.waiting <==> s.pcb[r].status == Waiting)
      && (r in s.zombie <==> s.pcb[r].status == Zombie)
      && (r in s.ready ==> s.pcb[r].status == Ready)
      && (s.running == Some(r) ==> s.pcb[r].status in {Running, Ready})
  {
    hide PidsInv, TreeInv, WaitsInv, TimersInv, WaitersInv, NoLostWakeUp, PtrInv, DataInv, ChansInv;
    ReachableInv(s);
    NoDupOccurs(s.ready, r);
    NoDupOccurs(s.waiting, r);
    NoDupOccurs(s.zombie, r);
  }

  /** Entry number `i` in the children list of the live process `p` is a link to `c`. */
  ghost predicate LinksTo(s: State, p: Ref, i: nat, c: Ref) {
    Live(s, p) && i < |s.pcb[p].children| && s.pcb[p].children[i].pcb == c
  }

  /** Every live process but init has exactly one entry in exactly one children list, that of
      its parent. */
  lemma OneChildLink(s: State, c: Ref) returns (p: Ref, i: nat)
    requires Reachable(s) && Live(s, c) && c != s.initPcb
    ensures LinksTo(s, p, i, c) && s.pcb[c].parent == Some(p)
    ensures forall q: Ref, j: nat :: LinksTo(s, q, j, c) ==> q == p && j == i
  {
    ReachableTree(s);
    assert HasParent(s, c);
    p := s.pcb[c].parent.value;
    i :| 0 <= i < |s.pcb[p].children| && s.pcb[p].children[i].pcb == c;
    forall q: Ref, j: nat | LinksTo(s, q, j, c)
      ensures q == p && j == i
    {
      OnlyLinkToChild(s, q, j, c);
      assert UniqueRefs(s.pcb[p].children);
    }
  }

  lemma ReachableTree(s: State)
    requires Reachable(s)
    ensures ParentsInv(s) && ChildrenInv(s)
  {
    hide WaitsInv, TimersInv, WaitersInv, PtrInv, DataInv, ChansInv, NoLostWakeUp;
    ReachableInv(s);
  }

  lemma OnlyLinkToChild(s: State, q: Ref, j: nat, c: Ref)
    requires ChildrenInv(s) && LinksTo(s, q, j, c)
    ensures s.pcb[c].parent == Some(q) && c != s.initPcb
  {
    assert s.pcb[q].children[j] in s.pcb[q].children;
    assert ChildLinkOk(s, q, s.pcb[q].children[j]);
  }

  /** A process other than init that is blocked in wait has no zombie child it asked for. */
  lemma NoWakeUpIsLost(s: State, r: Ref, z: Ref)
    requires Reachable(s) && r != s.initPcb && BlockedIn(s, r, CALL_WAIT)
    requires Live(s, z) && s.pcb[z].status == Zombie && s.pcb[z].parent == Some(r)
    ensures s.pcb[r].arg0 != 0 && s.pcb[r].arg0 != s.pcb[z].pid
  {
    hide PidsInv, TreeInv, WaitsInv, TimersInv, WaitersInv, PtrInv, DataInv, ChansInv;
    ReachableInv(s);
    OnePlaceEach(s, z);
    assert !Awaited(s, z, r, s.pcb[r].arg0);
  }

  // ---------- orphans ----------

  /** The children of `r` have become children of init, in order, after those it had. */
  ghost predicate Adopted(s: State, s': State, r: Ref) {
    && s'.pcb[r].children == []
    && s'.pcb[s.initPcb].children == s.pcb[s.initPcb].children + s.pcb[r].children
    && forall c: Ref :: Live(s, c) ==>
         s'.pcb[c].parent == if s.pcb[c].parent == Some(r) then Some(s.initPcb) else s.pcb[c].parent
  }

  lemma NoChildren(s: State, r: Ref)
    requires CoreInv(s) && Live(s, r) && r != s.initPcb && s.pcb[r].children == []
    ensures forall c: Ref :: Live(s, c) ==> s.pcb[c].parent != Some(r)
  {
    forall c: Ref | Live(s, c)
      ensures s.pcb[c].parent != Some(r)
    {
      if c != s.initPcb { assert HasParent(s, c); }
    }
  }

  lemma ChildOfR(s: State, r: Ref)
    requires CoreInv(s) && Live(s, r) && r != s.initPcb && s.pcb[r].children != []
    ensures var l := s.pcb[r].children[0];
      var s1 := ReparentOne(s, r);
      && Reparented(s, s1, r, l) && s.pcb[l.pcb].parent == Some(r)
      && Live(s1, r) && s1.initPcb == s.initPcb && |s1.pcb[r].children| < |s.pcb[r].children|
  {
    ReparentOneIs(s, r);
    assert ChildLinkOk(s, r, s.pcb[r].children[0]);
  }

  lemma AdoptedLater(s: State, s1: State, s2: State, r: Ref, l: Link)
    requires Reparented(s, s1, r, l) && s.pcb[l.pcb].parent == Some(r) && Adopted(s1, s2, r)
    ensures Adopted(s, s2, r)
  {
    assert s.pcb[r].children == [l] + s.pcb[r].children[1..];
  }

  lemma {:induction false} InitAdopts(s: State, r: Ref)
    requires CoreInv(s) && Live(s, r) && r != s.initPcb
    ensures Adopted(s, ReparentAll(s, r), r)
    decreases |s.pcb[r].children|
  {
    hide CoreInv;
    if s.pcb[r].children == [] {
      NoChildren(s, r);
    } else {
      hide ReparentOne, Reparented, Adopted;
      ChildOfR(s, r);
      ReparentOneKeeps(s, r);
      InitAdopts(ReparentOne(s, r), r);
      AdoptedLater(s, ReparentOne(s, r), ReparentAll(s, r), r, s.pcb[r].children[0]);
    }
  }

  // ---------- the wake-up that gets lost ----------

  /** Init is blocked in wait although it has a zombie child it asked for. */
  ghost predicate Stranded(s: State) {
    && BlockedIn(s, s.initPcb, CALL_WAIT)
    && exists z: Ref :: z in s.zombie && Awaited(s, z, s.initPcb, s.pcb[s.initPcb].arg0)
  }

  /** `r` has a zombie child that init asked for. */
  ghost predicate LeavesZombie(s: State, r: Ref) {
    exists z: Ref :: z in s.zombie && Awaited(s, z, r, s.pcb[s.initPcb].arg0)
  }

  lemma AdoptIsAdopted(s: State)
    requires CoreInv(s) && s.running.Some? && s.running.value != s.initPcb
    ensures ExitSafe(s) && Adopted(s, Adopt(s), s.running.value)
  {
    hide CoreInv, LoopEnds;
    ExitSafeExactly(s);
    var r := s.running.value;
    var s1 := SetPcb(s, r, s.pcb[r].(returnValue := s.pcb[r].arg0));
    ReturnValueKeeps(s);
    InitAdopts(s1, r);
  }

  /** The part of an exit before the next process is dispatched. */
  function Buried(s: State): State
    requires s.running.Some? && ExitSafe(s)
  {
    NotifyParent(Bury(Adopt(s), s.running.value), s.running.value)
  }

  lemma BuriedIs(s: State)
    requires CoreInv(s) && s.running.Some? && s.running.value != s.initPcb
    ensures ExitSafe(s)
    ensures var r := s.running.value;
      var s' := Buried(s);
      && s'.zombie == s.zombie + [r] && s'.initPcb == s.initPcb
      && (forall p: Ref :: p in s'.waiting <==> p in s.waiting && !(ParentAwaits(s, r) && s.pcb[r].parent == Some(p)))
      && (forall x: Ref :: s'.pcb[x].parent == Adopt(s).pcb[x].parent && s'.pcb[x].pid == s.pcb[x].pid
                           && s'.pcb[x].syscallNum == s.pcb[x].syscallNum && s'.pcb[x].arg0 == s.pcb[x].arg0)
  {
    hide CoreInv, Adopt, LoopEnds;
    ExitSafeExactly(s);
    var r := s.running.value;
    AdoptStanding(s);
    AdoptKeeps(s);
    ExitParent(s);
    BuriedParentAwaits(s, Adopt(s), r);
    WaitingNoDup(s);
    if ParentAwaits(s, r) {
      RemoveNoDup(s.waiting, s.pcb[r].parent.value);
    }
  }

  lemma DoExitIsBuried(s: State)
    requires s.running.Some? && ExitSafe(s)
    ensures var s', s1 := DoExit(s), Buried(s);
      && s'.zombie == s1.zombie && s'.waiting == s1.waiting && s'.initPcb == s1.initPcb
      && forall x: Ref ::
           s'.pcb[x].parent == s1.pcb[x].parent && s'.pcb[x].pid == s1.pcb[x].pid
           && s'.pcb[x].syscallNum == s1.pcb[x].syscallNum && s'.pcb[x].arg0 == s1.pcb[x].arg0
  {
    hide Adopt, Bury, NotifyParent, LoopEnds;
  }

  lemma ZombiesLive(s: State)
    requires CoreInv(s)
    ensures forall z: Ref :: z in s.zombie ==> Live(s, z)
    ensures forall x: Ref :: x in s.waiting ==> s.pcb[x].status == Waiting
    ensures s.running.Some? ==> s.running.value !in s.waiting
  {
  }

  lemma RunningIsLive(s: State)
    requires CoreInv(s) && s.running.Some?
    ensures Live(s, s.running.value)
  {
  }

  /** Exit strands init, when init waits, if and only if the exiting process leaves a zombie
      that init asked for and is not itself the child that init is woken for. */
  lemma ExitStrandsExactly(s: State)
    requires CoreInv(s) && s.running.Some? && BlockedIn(s, s.initPcb, CALL_WAIT) && !Stranded(s)
    ensures ExitSafe(s)
    ensures var r := s.running.value;
      Stranded(DoExit(s)) <==>
        LeavesZombie(s, r) && !(ParentAwaits(s, r) && s.pcb[r].parent == Some(s.initPcb))
  {
    hide CoreInv, Adopt, DoExit, Buried;
    var r := s.running.value;
    ZombiesLive(s);
    BuriedIs(s);
    DoExitIsBuried(s);
    AdoptIsAdopted(s);
    var s' := DoExit(s);
    var w := s.pcb[s.initPcb].arg0;
    assert s'.zombie == s.zombie + [r] && s'.pcb[s.initPcb].arg0 == w;
    ExitParent(s);
    assert Live(s, r) by { RunningIsLive(s); }
    assert Awaited(s', r, s.initPcb, w) == Awaited(s, r, s.initPcb, w);
    assert Awaited(s, r, s.initPcb, w) ==> ParentAwaits(s, r) && s.pcb[r].parent == Some(s.initPcb);
    forall z: Ref | z in s.zombie
      ensures Awaited(s', z, s.initPcb, w) <==> Awaited(s, z, r, w)
    {
      assert !Awaited(s, z, s.initPcb, w);
    }
    if LeavesZombie(s, r) {
      var z: Ref :| z in s.zombie && Awaited(s, z, r, w);
      assert z in s'.zombie && Awaited(s', z, s.initPcb, w);
    }
  }

  /** The same for a whole step. */
  lemma ExitStepStrandsExactly(s: State, v: int)
    requires Inv(s) && s.running.Some? && BlockedIn(s, s.initPcb, CALL_WAIT) && !Stranded(s)
    ensures Safe(s, Exit(v))
    ensures var r := s.running.value;
      Stranded(Step(s, Exit(v))) <==>
        LeavesZombie(s, r) && !(ParentAwaits(s, r) && s.pcb[r].parent == Some(s.initPcb))
  {
    hide CoreInv, Adopt, DoExit, ParentAwaits;
    var t := Trap(s, Exit(v));
    TrapKeeps(s, Exit(v));
    ZombiesLive(s);
    TrapWoken(s, Exit(v), s.initPcb);
    assert forall z: Ref, x: Ref, pid :: Awaited(t, z, x, pid) == Awaited(s, z, x, pid);
    assert t.pcb[s.initPcb] == s.pcb[s.initPcb];
    assert Stranded(t) == Stranded(s);
    ExitStrandsExactly(t);
    HistoryStranded(DoExit(t), Observe(s, Exit(v), DoExit(t)));
  }

  lemma HistoryStranded(s: State, h: map<int, Chan>)
    ensures Stranded(s.(chans := h)) == Stranded(s)
  {
    assert forall z: Ref, x: Ref, pid :: Awaited(s.(chans := h), z, x, pid) == Awaited(s, z, x, pid);
  }
}
