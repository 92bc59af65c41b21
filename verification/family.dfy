/** Processes are created, adopted, buried and reaped: the family tree stays a tree. */
module Family {
  import opened Wrappers
  import opened Seqs
  import opened KernelState
  import opened Syscalls
  import opened Invariants
  import opened Frames
  import opened Links
  import opened Waking

  // ---------- spawn and fork ----------

  lemma SpawnLists(s: State)
    requires ListsInv(s) && s.running.Some? && SpawnSafe(s) && s.pcbPool.Wf(MAX_NUM_PROCESSES)
    ensures ListsInv(DoSpawn(s))
  {
    assert s.pcbPool.free[0] in s.pcbPool.free;
  }

  lemma SpawnPids(s: State)
    requires PidsInv(s) && ListsInv(s) && s.running.Some? && SpawnSafe(s) && s.pcbPool.Wf(MAX_NUM_PROCESSES)
    ensures PidsInv(DoSpawn(s))
  {
    assert s.pcbPool.free[0] in s.pcbPool.free;
  }

  lemma ChildIsLive(s: State, p: Ref, c: Ref)
    requires ChildrenInv(s) && Live(s, p) && HasRef(s.pcb[p].children, c)
    ensures Live(s, c) && c != s.initPcb && s.pcb[c].parent == Some(p)
  {
    var k :| 0 <= k < |s.pcb[p].children| && s.pcb[p].children[k].pcb == c;
    assert ChildLinkOk(s, p, s.pcb[p].children[k]);
  }

  lemma SpawnParents(s: State)
    requires PidsInv(s) && ListsInv(s) && ParentsInv(s) && ChildrenInv(s) && s.running.Some? && SpawnSafe(s)
    requires s.pcbPool.Wf(MAX_NUM_PROCESSES)
    ensures ParentsInv(DoSpawn(s))
  {
    var s' := DoSpawn(s);
    var r := s.running.value;
    var c := s.pcbPool.free[0];
    assert c in s.pcbPool.free;
    if HasRef(s.pcb[r].children, c) { ChildIsLive(s, r, c); }
    LinkJoins(s.pcb[r].children, Link(s.ptrPool.free[0], c));
    forall x: Ref | Live(s', x) && x != s'.initPcb
      ensures HasParent(s', x)
    {
      if x != c { assert HasParent(s, x); }
    }
  }

  lemma SpawnChildren(s: State)
    requires ListsInv(s) && ChildrenInv(s) && s.running.Some? && SpawnSafe(s) && Live(s, s.initPcb)
    requires s.pcbPool.Wf(MAX_NUM_PROCESSES) && s.ptrPool.Wf(MAX_NUM_PROCESSES)
    ensures ChildrenInv(DoSpawn(s))
  {
    var s' := DoSpawn(s);
    var r := s.running.value;
    var c := s.pcbPool.free[0];
    var l := Link(s.ptrPool.free[0], c);
    assert c in s.pcbPool.free && l.block in s.ptrPool.free;
    if HasRef(s.pcb[r].children, c) { ChildIsLive(s, r, c); }
    LinkJoins(s.pcb[r].children, l);
    forall p: Ref, m | Live(s', p) && m in s'.pcb[p].children
      ensures ChildLinkOk(s', p, m)
    {
      if m != l { assert m in s.pcb[p].children && ChildLinkOk(s, p, m); }
    }
  }

  lemma SpawnTree(s: State)
    requires PidsInv(s) && ListsInv(s) && TreeInv(s) && s.running.Some? && SpawnSafe(s)
    requires s.pcbPool.Wf(MAX_NUM_PROCESSES) && s.ptrPool.Wf(MAX_NUM_PROCESSES)
    ensures TreeInv(DoSpawn(s))
  {
    SpawnParents(s);
    SpawnChildren(s);
    assert s.pcbPool.free[0] in s.pcbPool.free;
  }

  lemma SpawnBlocked(s: State)
    requires ListsInv(s) && s.running.Some? && SpawnSafe(s)
    requires s.pcbPool.Wf(MAX_NUM_PROCESSES) && s.ptrPool.Wf(MAX_NUM_PROCESSES)
    ensures SameBlocked(s, DoSpawn(s))
  {
    assert s.pcbPool.free[0] in s.pcbPool.free && s.ptrPool.free[0] in s.ptrPool.free;
  }

  lemma SpawnPtrs(s: State)
    requires PtrInv(s) && ParentsInv(s) && ListsInv(s) && s.running.Some? && SpawnSafe(s)
    requires s.pcbPool.Wf(MAX_NUM_PROCESSES) && s.ptrPool.Wf(MAX_NUM_PROCESSES) && Live(s, s.initPcb)
    ensures PtrInv(DoSpawn(s))
  {
    var s' := DoSpawn(s);
    assert s.pcbPool.free[0] in s.pcbPool.free && s.ptrPool.free[0] in s.ptrPool.free;
    forall b | b in s'.ptrPool.live
      ensures Owned(s', b, s'.ptrPool.live[b])
    {
      if b != s.ptrPool.free[0] {
        assert Owned(s, b, s.ptrPool.live[b]);
        match s.ptrPool.live[b]
        case ChildOf(c) => assert HasParent(s, c);
        case WaiterOf(w) => assert OwnedByWaiter(s, b, w);
      }
    }
  }

  lemma SpawnWakeUp(s: State)
    requires NoLostWakeUp(s) && ListsInv(s) && s.running.Some? && SpawnSafe(s)
    requires s.pcbPool.Wf(MAX_NUM_PROCESSES)
    ensures NoLostWakeUp(DoSpawn(s))
  {
    assert s.pcbPool.free[0] in s.pcbPool.free;
  }

  lemma SpawnFiles(s: State)
    requires ResourcesInv(s) && FdsInv(s) && ListsInv(s) && s.running.Some? && SpawnSafe(s)
    requires s.pcbPool.Wf(MAX_NUM_PROCESSES)
    ensures ResourcesInv(DoSpawn(s)) && FdsInv(DoSpawn(s))
  {
    assert s.pcbPool.free[0] in s.pcbPool.free;
  }

  lemma SpawnKeeps(s: State)
    requires CoreInv(s) && s.running.Some? && SpawnSafe(s)
    ensures CoreInv(DoSpawn(s))
  {
    SpawnLists(s);
    SpawnPids(s);
    SpawnTree(s);
    SpawnBlocked(s);
    FrameWaits(s, DoSpawn(s));
    SpawnPtrs(s);
    SpawnWakeUp(s);
    SpawnFiles(s);
    s.pcbPool.TakeKeeps((), MAX_NUM_PROCESSES);
    s.ptrPool.TakeKeeps(ChildOf(s.pcbPool.free[0]), MAX_NUM_PROCESSES);
  }

  // ---------- reaping a zombie ----------

  /** `z` is a zombie child of `r`. */
  ghost predicate Reapable(s: State, r: Ref, z: Ref) {
    z in s.zombie && s.pcb[z].parent == Some(r)
  }

  /** The search by pid finds the link of this very child. */
  lemma ReapFindsLink(s: State, r: Ref, z: Ref) returns (i: nat)
    requires PidsInv(s) && TreeInv(s) && ListsInv(s) && Reapable(s, r, z)
    ensures z != s.initPcb && z != r && Live(s, r)
    ensures i < |s.pcb[r].children| && s.pcb[r].children[i].pcb == z
    ensures FindLink(s.pcb, s.pcb[r].children, s.pcb[z].pid) == Some(i)
    ensures var l := s.pcb[r].children[i];
      l.block in s.ptrPool.live && s.ptrPool.live[l.block] == ChildOf(z)
  {
    assert HasParent(s, z);
    var ls := s.pcb[r].children;
    var found := FindLink(s.pcb, ls, s.pcb[z].pid);
    var k :| 0 <= k < |ls| && ls[k].pcb == z;
    assert found.Some?;
    i := found.value;
    assert ls[i] in ls && ChildLinkOk(s, r, ls[i]);
  }

  /** The state after reaping, spelled out. */
  lemma ReapEffect(s: State, r: Ref, z: Ref, out: int, i: nat)
    requires i < |s.pcb[r].children| && z != r
    requires FindLink(s.pcb, s.pcb[r].children, s.pcb[z].pid) == Some(i)
    ensures Reap(s, r, z, out) ==
      s.(pcb := s.pcb[r := s.pcb[r].(children := RemoveAt(s.pcb[r].children, i))],
         zombie := Remove(s.zombie, z),
         ptrPool := s.ptrPool.Give(s.pcb[r].children[i].block),
         mem := Write(s.mem, out, s.pcb[z].returnValue),
         pcbPool := s.pcbPool.Give(z))
  {
  }

  /** `s'` is `s` without the zombie `z`, child of `r`, whose link is `l`. */
  ghost predicate Reaped(s: State, s': State, r: Ref, z: Ref, l: Link) {
    && Reapable(s, r, z) && z != s.initPcb && z != r && Live(s, r)
    && l in s.pcb[r].children && l.pcb == z
    && l.block in s.ptrPool.live && s.ptrPool.live[l.block] == ChildOf(z)
    && (forall m :: m in s'.pcb[r].children <==> m in s.pcb[r].children && m != l)
    && (forall x: Ref :: HasRef(s'.pcb[r].children, x) <==> HasRef(s.pcb[r].children, x) && x != z)
    && UniqueRefs(s'.pcb[r].children)
    && (forall x: Ref :: x != r ==> s'.pcb[x] == s.pcb[x])
    && s'.pcb[r] == s.pcb[r].(children := s'.pcb[r].children)
    && s'.zombie == Remove(s.zombie, z)
    && s' == s.(pcb := s'.pcb, zombie := s'.zombie, ptrPool := s.ptrPool.Give(l.block),
                mem := s'.mem, pcbPool := s.pcbPool.Give(z))
  }

  lemma ReapIsReaped(s: State, r: Ref, z: Ref, out: int) returns (l: Link)
    requires PidsInv(s) && TreeInv(s) && ListsInv(s) && Reapable(s, r, z)
    ensures Reaped(s, Reap(s, r, z, out), r, z, l)
  {
    var i := ReapFindsLink(s, r, z);
    ReapEffect(s, r, z, out, i);
    LinkLeaves(s.pcb[r].children, i);
    l := s.pcb[r].children[i];
  }

  lemma ReapLists(s: State, s': State, r: Ref, z: Ref, l: Link)
    requires ListsInv(s) && Reaped(s, s', r, z, l)
    ensures ListsInv(s')
  {
    RemoveNoDup(s.zombie, z);
  }

  lemma ReapParents(s: State, s': State, r: Ref, z: Ref, l: Link)
    requires ParentsInv(s) && s.pcb[z].children == [] && Reaped(s, s', r, z, l)
    ensures ParentsInv(s')
  {
    forall c: Ref | Live(s', c) && c != s'.initPcb
      ensures HasParent(s', c)
    {
      assert HasParent(s, c);
    }
  }

  lemma ReapChildren(s: State, s': State, r: Ref, z: Ref, l: Link)
    requires ChildrenInv(s) && Reaped(s, s', r, z, l)
    ensures ChildrenInv(s')
  {
    forall p: Ref, m | Live(s', p) && m in s'.pcb[p].children
      ensures ChildLinkOk(s', p, m)
    {
      assert m in s.pcb[p].children && ChildLinkOk(s, p, m);
      if m.pcb == z {
        SameLink(s.pcb[r].children, m, l);
      }
    }
  }

  lemma ReapTree(s: State, s': State, r: Ref, z: Ref, l: Link)
    requires ListsInv(s) && PidsInv(s) && TreeInv(s) && Reaped(s, s', r, z, l)
    ensures PidsInv(s') && TreeInv(s')
  {
    assert s.pcb[z].children == [];
    ReapParents(s, s', r, z, l);
    ReapChildren(s, s', r, z, l);
  }

  lemma ReapPtrs(s: State, s': State, r: Ref, z: Ref, l: Link)
    requires TreeInv(s) && PtrInv(s) && ListsInv(s) && Reaped(s, s', r, z, l)
    ensures PtrInv(s')
  {
    forall b | b in s'.ptrPool.live
      ensures Owned(s', b, s'.ptrPool.live[b])
    {
      assert Owned(s, b, s.ptrPool.live[b]);
      if s.ptrPool.live[b] == ChildOf(z) {
        SameLink(s.pcb[r].children, Link(b, z), l);
      }
    }
  }

  lemma ReapOthers(s: State, s': State, r: Ref, z: Ref, l: Link)
    requires ListsInv(s) && NoLostWakeUp(s) && ResourcesInv(s) && FdsInv(s) && Reaped(s, s', r, z, l)
    ensures SameBlocked(s, s') && NoLostWakeUp(s') && ResourcesInv(s') && FdsInv(s')
  {
  }

  lemma ReapKeeps(s: State, r: Ref, z: Ref, out: int)
    requires CoreInv(s) && Reapable(s, r, z)
    ensures CoreInv(Reap(s, r, z, out))
  {
    var s' := Reap(s, r, z, out);
    var l := ReapIsReaped(s, r, z, out);
    ReapLists(s, s', r, z, l);
    ReapTree(s, s', r, z, l);
    ReapPtrs(s, s', r, z, l);
    ReapOthers(s, s', r, z, l);
    FrameWaits(s, s');
    s.pcbPool.GiveKeeps(z, MAX_NUM_PROCESSES);
    s.ptrPool.GiveKeeps(l.block, MAX_NUM_PROCESSES);
  }

  // ---------- handing children over to init ----------

  /** `s'` is `s` with the first child of `r` moved to the end of init's children. */
  ghost predicate Reparented(s: State, s': State, r: Ref, l: Link) {
    && r != s.initPcb && Live(s, r)
    && s.pcb[r].children != [] && l == s.pcb[r].children[0]
    && l.pcb != r && l.pcb != s.initPcb
    && s'.pcb[r] == s.pcb[r].(children := s.pcb[r].children[1..])
    && s'.pcb[s.initPcb] == s.pcb[s.initPcb].(children := s.pcb[s.initPcb].children + [l])
    && s'.pcb[l.pcb] == s.pcb[l.pcb].(parent := Some(s.initPcb))
    && (forall x: Ref :: x != r && x != s.initPcb && x != l.pcb ==> s'.pcb[x] == s.pcb[x])
    && s' == s.(pcb := s'.pcb)
  }

  lemma ReparentOneIs(s: State, r: Ref)
    requires PidsInv(s) && TreeInv(s) && Live(s, r) && r != s.initPcb && s.pcb[r].children != []
    ensures Reparented(s, ReparentOne(s, r), r, s.pcb[r].children[0])
  {
    var l := s.pcb[r].children[0];
    assert l in s.pcb[r].children && ChildLinkOk(s, r, l);
    assert HasParent(s, l.pcb);
  }

  lemma ReparentParents(s: State, s': State, r: Ref, l: Link)
    requires PidsInv(s) && ParentsInv(s) && ChildrenInv(s) && Reparented(s, s', r, l)
    ensures ParentsInv(s')
  {
    assert ChildLinkOk(s, r, l);
    if HasRef(s.pcb[s.initPcb].children, l.pcb) { ChildIsLive(s, s.initPcb, l.pcb); }
    LinkJoins(s.pcb[s.initPcb].children, l);
    HeadLinkLeaves(s.pcb[r].children);
    forall c: Ref | Live(s', c) && c != s'.initPcb
      ensures HasParent(s', c)
    {
      assert HasParent(s, c);
    }
  }

  lemma ReparentChildren(s: State, s': State, r: Ref, l: Link)
    requires ChildrenInv(s) && Reparented(s, s', r, l) && Live(s, s.initPcb)
    ensures ChildrenInv(s')
  {
    assert ChildLinkOk(s, r, l);
    if HasRef(s.pcb[s.initPcb].children, l.pcb) { ChildIsLive(s, s.initPcb, l.pcb); }
    LinkJoins(s.pcb[s.initPcb].children, l);
    HeadLinkLeaves(s.pcb[r].children);
    forall p: Ref, m | Live(s', p) && m in s'.pcb[p].children
      ensures ChildLinkOk(s', p, m)
    {
      if m != l {
        assert m in s.pcb[p].children && ChildLinkOk(s, p, m);
        if m.pcb == l.pcb { SameLink(s.pcb[r].children, m, l); }
      }
    }
  }

  lemma ReparentTree(s: State, s': State, r: Ref, l: Link)
    requires PidsInv(s) && TreeInv(s) && Reparented(s, s', r, l)
    ensures PidsInv(s') && TreeInv(s')
  {
    ReparentParents(s, s', r, l);
    ReparentChildren(s, s', r, l);
  }

  lemma ReparentPtrs(s: State, s': State, r: Ref, l: Link)
    requires TreeInv(s) && PtrInv(s) && Reparented(s, s', r, l) && Live(s, s.initPcb)
    ensures PtrInv(s')
  {
    HeadLinkLeaves(s.pcb[r].children);
    assert ChildLinkOk(s, r, l);
    forall b | b in s'.ptrPool.live
      ensures Owned(s', b, s'.ptrPool.live[b])
    {
      assert Owned(s, b, s.ptrPool.live[b]);
      if s.ptrPool.live[b] == ChildOf(l.pcb) {
        SameLink(s.pcb[r].children, Link(b, l.pcb), l);
      }
    }
  }

  lemma ReparentOthers(s: State, s': State, r: Ref, l: Link)
    requires ListsInv(s) && NoLostWakeUp(s) && Reparented(s, s', r, l)
    ensures ListsInv(s') && NoLostWakeUp(s')
  {
  }

  lemma ReparentSame(s: State, s': State, r: Ref, l: Link)
    requires Reparented(s, s', r, l)
    ensures SameBlocked(s, s') && SameData(s, s')
  {
  }

  lemma ReparentOneKeeps(s: State, r: Ref)
    requires CoreInv(s) && Live(s, r) && r != s.initPcb && s.pcb[r].children != []
    ensures CoreInv(ReparentOne(s, r))
  {
    var s' := ReparentOne(s, r);
    var l := s.pcb[r].children[0];
    ReparentOneIs(s, r);
    ReparentTree(s, s', r, l);
    ReparentPtrs(s, s', r, l);
    ReparentOthers(s, s', r, l);
    ReparentSame(s, s', r, l);
    FrameWaits(s, s');
    FrameData(s, s');
  }

  lemma {:induction false} ReparentAllKeeps(s: State, r: Ref)
    requires CoreInv(s) && Live(s, r) && r != s.initPcb
    ensures CoreInv(ReparentAll(s, r))
    ensures ReparentAll(s, r).pcb[r].children == []
    ensures ReparentAll(s, r) == s.(pcb := ReparentAll(s, r).pcb)
    decreases |s.pcb[r].children|
  {
    if s.pcb[r].children != [] {
      ReparentOneKeeps(s, r);
      ReparentOneIs(s, r);
      ReparentAllKeeps(ReparentOne(s, r), r);
    }
  }

  // ---------- exit ----------

  lemma BuryLists(s: State, r: Ref)
    requires ListsInv(s) && s.running == Some(r)
    ensures ListsInv(Bury(s, r))
  {
    assert r !in s.zombie && r !in s.waiting;
  }

  lemma BuryBlocked(s: State, r: Ref)
    requires ListsInv(s) && s.running == Some(r)
    ensures SameBlocked(s, Bury(s, r)) && SameFamily(s, Bury(s, r)) && SameData(s, Bury(s, r))
  {
  }

  lemma BuryWakeUp(s: State, r: Ref)
    requires ListsInv(s) && NoLostWakeUp(s) && s.running == Some(r) && !ParentAwaits(s, r)
    ensures NoLostWakeUp(Bury(s, r))
  {
  }

  lemma BuryProc(s: State, r: Ref)
    requires ProcInv(s) && s.running == Some(r) && !ParentAwaits(s, r) && s.pcb[r].children == []
    ensures ProcInv(Bury(s, r))
  {
    hide NoLostWakeUp, WaitsInv, TimersInv, WaitersInv, PtrInv, ParentAwaits;
    var s' := Bury(s, r);
    BuryLists(s, r);
    BuryBlocked(s, r);
    BuryWakeUp(s, r);
    FrameFamily(s, s');
    FrameWaits(s, s');
    FramePtrs(s, s');
  }

  lemma BuryKeeps(s: State, r: Ref)
    requires CoreInv(s) && s.running == Some(r) && !ParentAwaits(s, r) && s.pcb[r].children == []
    ensures CoreInv(Bury(s, r))
  {
    BuryProc(s, r);
    BuryBlocked(s, r);
    FrameData(s, Bury(s, r));
  }

  /** Waking the parent after the burial or before it makes no difference. */
  lemma WakeThenBury(s: State, r: Ref)
    requires s.pcb[r].parent != Some(r)
    ensures NotifyParent(Bury(s, r), r) ==
      if ParentAwaits(s, r) then Bury(WakeReady(s, s.pcb[r].parent.value), r) else Bury(s, r)
  {
    assert ParentAwaits(Bury(s, r), r) == ParentAwaits(s, r);
    if ParentAwaits(s, r) {
      var p := s.pcb[r].parent.value;
      assert NotifyParent(Bury(s, r), r).pcb == Bury(WakeReady(s, p), r).pcb;
    }
  }

  lemma AwaitingParent(s: State, r: Ref)
    requires ListsInv(s) && TreeInv(s) && s.running == Some(r)
    ensures s.pcb[r].parent != Some(r)
    ensures ParentAwaits(s, r) ==> BlockedIn(s, s.pcb[r].parent.value, CALL_WAIT)
  {
    if r != s.initPcb { assert HasParent(s, r); }
  }

  lemma WakeThenBuryKeeps(s: State, r: Ref, p: Ref)
    requires CoreInv(s) && s.running == Some(r) && s.pcb[r].children == []
    requires s.pcb[r].parent == Some(p) && p != r && BlockedIn(s, p, CALL_WAIT)
    ensures CoreInv(Bury(WakeReady(s, p), r))
  {
    WakeParentKeeps(s, p);
    BuryKeeps(WakeReady(s, p), r);
  }

  lemma NotifyKeeps(s: State, r: Ref)
    requires CoreInv(s) && s.running == Some(r) && s.pcb[r].children == []
    ensures CoreInv(NotifyParent(Bury(s, r), r))
  {
    AwaitingParent(s, r);
    WakeThenBury(s, r);
    if ParentAwaits(s, r) {
      WakeThenBuryKeeps(s, r, s.pcb[r].parent.value);
    } else {
      BuryKeeps(s, r);
    }
  }
}
