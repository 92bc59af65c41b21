/** Descriptors over whole runs: closing undoes opening, numbers are never shared, and what a
    process leaves open when it exits stays open for ever. */
module Descriptors {
  import opened Wrappers
  import opened Seqs
  import opened KernelState
  import opened Syscalls
  import opened Invariants
  import opened Scheduling
  import opened Files
  import opened Bystanders
  import opened Steps

  // ---------- open, then close ----------

  lemma RemoveLast<T>(xs: seq<T>, x: T)
    requires x !in xs
    ensures Remove(xs + [x], x) == xs
  {
    if xs == [] {
      assert ([x] + [])[1..] == [];
    } else {
      assert (xs + [x])[1..] == xs[1..] + [x];
      RemoveLast(xs[1..], x);
      assert [xs[0]] + xs[1..] == xs;
    }
  }

  lemma FindLastFd(ds: seq<Descriptor>, d: Descriptor)
    requires forall x :: x in ds ==> x.fd != d.fd
    ensures DescriptorByFd(ds + [d], d.fd) == Some(|ds|)
  {
    if ds != [] {
      assert (ds + [d])[1..] == ds[1..] + [d];
      assert forall x :: x in ds[1..] ==> x in ds;
      FindLastFd(ds[1..], d);
    }
  }

  /** The descriptor that opening resource `rb` creates. */
  function NewDescriptor(s: State, rb: nat): Descriptor
    requires s.running.Some? && s.desPool.free != []
  {
    var b := s.desPool.free[0];
    Descriptor(b, s.running.value, rb, s.pcb[s.running.value].lastFd, b)
  }

  lemma FindsNewFd(s: State, rb: nat)
    requires FdsInv(s) && s.running.Some? && Live(s, s.running.value) && s.desPool.free != []
    ensures var p := s.pcb[s.running.value];
      DescriptorByFd(p.descriptors + [NewDescriptor(s, rb)], p.lastFd) == Some(|p.descriptors|)
  {
    assert FdsOk(s.desPool.live, s.pcb[s.running.value], s.running.value);
    FindLastFd(s.pcb[s.running.value].descriptors, NewDescriptor(s, rb));
  }

  lemma EntryIsNew(s: State, rb: nat)
    requires ResourcesInv(s) && rb in s.resPool.live && s.desPool.free != [] && s.desPool.Wf(MAX_NUM_PROCESSES)
    ensures var b := s.desPool.free[0]; DescriptorPtr(b, b) !in s.resPool.live[rb].descriptorPtrs
  {
    var x := DescriptorPtr(s.desPool.free[0], s.desPool.free[0]);
    assert s.desPool.free[0] in s.desPool.free;
    assert x in s.resPool.live[rb].descriptorPtrs ==> EntryOk(s.desPool.live, rb, x);
  }

  /** Removing the descriptor just added to `s` restores the resource and both pools, with
      their free lists in the same order, whatever happened to the processes meanwhile. */
  lemma DropUndoesAdd(s: State, rb: nat, u: State)
    requires s.running.Some? && rb in s.resPool.live
    requires s.desPool.Wf(MAX_NUM_PROCESSES) && s.desPtrPool.Wf(MAX_NUM_PROCESSES)
    requires s.desPool.free != [] && s.desPtrPool.free == s.desPool.free
    requires DescriptorPtr(s.desPool.free[0], s.desPool.free[0]) !in s.resPool.live[rb].descriptorPtrs
    requires u == AddDescriptor(s, rb).(pcb := u.pcb)
    requires var r := s.running.value;
      u.pcb[r].descriptors == s.pcb[r].descriptors + [NewDescriptor(s, rb)]
    ensures var r := s.running.value;
      var ds := s.pcb[r].descriptors;
      DropDescriptor(u, |ds|) == s.(pcb := u.pcb[r := u.pcb[r].(descriptors := ds)])
  {
    var r := s.running.value;
    var ds := s.pcb[r].descriptors;
    var d := NewDescriptor(s, rb);
    s.desPool.GiveUndoesTake(d, MAX_NUM_PROCESSES);
    s.desPtrPool.GiveUndoesTake(d.block, MAX_NUM_PROCESSES);
    RemoveLast(s.resPool.live[rb].descriptorPtrs, DescriptorPtr(d.block, d.block));
    assert RemoveAt(ds + [d], |ds|) == ds;
    assert DropDescriptor(u, |ds|).resPool.live == s.resPool.live;
  }

  /** An open without DSOS_CREATE finds what it needs. */
  predicate Opens(s: State, id: int, rtype: int, mode: int) {
    var found := ResourceById(s.resPool.live, s.resList, id);
    && found.Some?
    && s.resPool.live[found.value].rtype == rtype
    && !(ExclBit(mode) && s.resPool.live[found.value].descriptorPtrs != [])
    && s.desPool.free != []
  }

  /** Why an open without DSOS_CREATE is refused. */
  function OpenError(s: State, id: int, rtype: int, mode: int): int {
    var found := ResourceById(s.resPool.live, s.resList, id);
    if found.None? || s.resPool.live[found.value].rtype != rtype then ERESOURCEOPEN
    else if ExclBit(mode) && s.resPool.live[found.value].descriptorPtrs != [] then ERESOURCENOEXCL
    else ERESOURCENOFD
  }

  /** What an open without DSOS_CREATE does, in both outcomes. */
  lemma OpenOutcome(s: State)
    requires s.running.Some? && ResourcesInv(s) && !CreateBit(s.pcb[s.running.value].arg2)
    ensures OpenSafe(s)
    ensures var p := s.pcb[s.running.value];
      if Opens(s, p.arg0, p.arg1, p.arg2) then
        DoOpen(s) == Return(AddDescriptor(s, ResourceById(s.resPool.live, s.resList, p.arg0).value), p.lastFd)
      else
        DoOpen(s) == Return(s, OpenError(s, p.arg0, p.arg1, p.arg2))
  {
  }

  /** The saved call of the caller, `v` its return value. */
  function AfterCall(p: Pcb, op: Op, v: int): Pcb
    requires !op.Tick?
  {
    WithArgs(p, op).(syscallNum := Number(op), retval := v)
  }

  /** An open without DSOS_CREATE succeeds exactly when the resource exists with the type
      asked for, is not refused by DSOS_EXCL, and a descriptor is left; otherwise the call
      only records its error. */
  lemma OpensExactly(s: State, id: int, rtype: int, mode: int)
    requires Inv(s) && s.running.Some? && !CreateBit(mode)
    ensures Safe(s, Open(id, rtype, mode))
    ensures var s' := Step(s, Open(id, rtype, mode));
      var r := s.running.value;
      && (Opens(s, id, rtype, mode) <==> |s'.desPool.live| == |s.desPool.live| + 1)
      && (Opens(s, id, rtype, mode) ==> s'.pcb[r].retval == s.pcb[r].lastFd)
      && (!Opens(s, id, rtype, mode) ==>
           s' == SetPcb(s, r, AfterCall(s.pcb[r], Open(id, rtype, mode), OpenError(s, id, rtype, mode))))
  {
    hide CoreInv, ChansInv, WorkConserving, DoOpen, Step, Safe, ResourceById, ResourcesInv, FdsInv;
    var op := Open(id, rtype, mode);
    var r := s.running.value;
    OpenReady(s, op);
    var t := Trap(s, op);
    OpenOutcome(t);
    StepOpen(s, op);
    if Opens(s, id, rtype, mode) {
      s.desPool.TakeKeeps(NewDescriptor(s, ResourceById(s.resPool.live, s.resList, id).value), MAX_NUM_PROCESSES);
      assert |s.desPool.live.Keys + {s.desPool.free[0]}| == |s.desPool.live.Keys| + 1;
    }
  }

  lemma StepOpen(s: State, op: Op)
    requires s.running.Some? && op.Open? && OpenSafe(Trap(s, op))
    ensures Safe(s, op) && Step(s, op) == DoOpen(Trap(s, op))
  {
    hide DoOpen, DoTick;
    OpenBystander(Trap(s, op));
  }

  lemma StepClose(s: State, op: Op)
    requires s.running.Some? && op.Close?
    ensures Safe(s, op) && Step(s, op) == DoClose(Trap(s, op))
  {
    hide DoClose, DoTick;
    CloseBystander(Trap(s, op));
  }

  lemma OpenReady(s: State, op: Op)
    requires CoreInv(s) && s.running.Some? && !op.Tick?
    ensures ResourcesInv(Trap(s, op)) && FdsInv(Trap(s, op)) && Live(s, s.running.value)
    ensures s.desPool.Wf(MAX_NUM_PROCESSES) && s.desPtrPool.Wf(MAX_NUM_PROCESSES)
    ensures s.desPtrPool.free == s.desPool.free
  {
    TrapKeeps(s, op);
  }

  lemma CloseAfterAdd(t: State, rb: nat)
    requires ResourcesInv(t) && FdsInv(t) && t.running.Some? && Live(t, t.running.value)
    requires t.desPool.Wf(MAX_NUM_PROCESSES) && t.desPtrPool.Wf(MAX_NUM_PROCESSES)
    requires t.desPool.free != [] && t.desPtrPool.free == t.desPool.free && rb in t.resPool.live
    ensures var r := t.running.value;
      var fd := t.pcb[r].lastFd;
      DoClose(Trap(Return(AddDescriptor(t, rb), fd), Close(fd))) ==
        SetPcb(t, r, AfterCall(t.pcb[r], Close(fd), 0).(lastFd := fd + 1))
  {
    hide DropDescriptor, DescriptorByFd, ResourcesInv, FdsInv;
    var r := t.running.value;
    var fd := t.pcb[r].lastFd;
    var u := Trap(Return(AddDescriptor(t, rb), fd), Close(fd));
    FindsNewFd(t, rb);
    EntryIsNew(t, rb);
    DropUndoesAdd(t, rb, u);
    assert DoClose(u) == Return(DropDescriptor(u, |t.pcb[r].descriptors|), 0);
  }

  /** Opening an existing resource and closing the number returned restores every list, the
      resource and both pools; what remains is the caller's saved call and that the number
      is used up. */
  lemma CloseUndoesOpen(s: State, id: int, rtype: int, mode: int)
    requires Inv(s) && s.running.Some? && !CreateBit(mode) && Opens(s, id, rtype, mode)
    ensures var r := s.running.value;
      var open := Open(id, rtype, mode);
      && Safe(s, open)
      && var s1 := Step(s, open);
      && s1.running == Some(r)
      && var close := Close(s1.pcb[r].retval);
      && Safe(s1, close)
      && Step(s1, close) == SetPcb(s, r,
           AfterCall(AfterCall(s.pcb[r], open, 0), close, 0).(lastFd := s.pcb[r].lastFd + 1))
  {
    hide CoreInv, ChansInv, WorkConserving, DoOpen, DoClose, Step, Safe, ResourceById, ResourcesInv, FdsInv;
    var r := s.running.value;
    var open := Open(id, rtype, mode);
    OpenReady(s, open);
    var t := Trap(s, open);
    OpenOutcome(t);
    StepOpen(s, open);
    StepClose(Step(s, open), Close(s.pcb[r].lastFd));
    CloseAfterAdd(t, ResourceById(s.resPool.live, s.resList, id).value);
  }

  // ---------- numbers and lockstep ----------

  /** Two descriptors of a live process never share a number, and every number is below the
      next one to be given out; the descriptor is in use for this process, and its only
      entry is in the list of a registered resource, the only one under its id. */
  lemma DescriptorsAreSound(s: State, r: Ref, i: nat)
    requires Reachable(s) && Live(s, r) && i < |s.pcb[r].descriptors|
    ensures var d := s.pcb[r].descriptors[i];
      && d.fd < s.pcb[r].lastFd && d.pcb == r
      && (forall j :: 0 <= j < |s.pcb[r].descriptors| && s.pcb[r].descriptors[j].fd == d.fd ==> j == i)
      && d.res in s.resPool.live && d.res in s.resList
      && (forall rb, x :: rb in s.resPool.live && x in s.resPool.live[rb].descriptorPtrs && x.descriptor == d.block ==>
            rb == d.res && x == DescriptorPtr(d.block, d.block))
      && (forall b :: b in s.resPool.live && s.resPool.live[b].id == s.resPool.live[d.res].id ==> b == d.res)
  {
    hide ProcInv, PoolsInv, QueuesInv, StorageInv, ChansInv, WorkConserving;
    ReachableInv(s);
    DescriptorEntry(s, r, i);
    var ds := s.pcb[r].descriptors;
    assert FdsOk(s.desPool.live, s.pcb[r], r);
    assert ds[i] in ds && DescriptorOk(s.desPool.live, s.resPool.live, ds[i].block);
    forall rb, x | rb in s.resPool.live && x in s.resPool.live[rb].descriptorPtrs && x.descriptor == ds[i].block
      ensures rb == ds[i].res && x == DescriptorPtr(ds[i].block, ds[i].block)
    {
      assert EntryOk(s.desPool.live, rb, x);
    }
  }

  /** Every descriptor in use, whether or not a process still has it, has exactly one entry in
      all lists of resources: that of its own resource, which is registered and alone under
      its id. And every entry is that of a descriptor in use. */
  lemma EntriesAndDescriptorsMatch(s: State, d: nat)
    requires Reachable(s)
    ensures d in s.desPool.live ==>
      var rb := s.desPool.live[d].res;
      && rb in s.resPool.live && rb in s.resList
      && (forall b, x :: b in s.resPool.live && x in s.resPool.live[b].descriptorPtrs && x.descriptor == d ==>
            b == rb && x == DescriptorPtr(d, d))
      && DescriptorPtr(d, d) in s.resPool.live[rb].descriptorPtrs && NoDup(s.resPool.live[rb].descriptorPtrs)
      && (forall b :: b in s.resPool.live && s.resPool.live[b].id == s.resPool.live[rb].id ==> b == rb)
    ensures forall b, x :: b in s.resPool.live && x in s.resPool.live[b].descriptorPtrs ==>
      x.descriptor in s.desPool.live && s.desPool.live[x.descriptor].res == b
  {
    hide ProcInv, PoolsInv, QueuesInv, StorageInv, FdsInv, ChansInv, WorkConserving;
    ReachableInv(s);
    forall b, x | b in s.resPool.live && x in s.resPool.live[b].descriptorPtrs
      ensures x.descriptor in s.desPool.live && s.desPool.live[x.descriptor].res == b
      ensures x == DescriptorPtr(x.descriptor, x.descriptor)
    {
      assert EntryOk(s.desPool.live, b, x);
    }
    assert d in s.desPool.live ==> DescriptorOk(s.desPool.live, s.resPool.live, d);
  }

  /** A descriptor never lacks its entry: the second allocation of open succeeds whenever
      the first did. */
  lemma SecondAllocationSucceeds(s: State)
    requires Reachable(s)
    ensures s.desPool.free != [] <==> s.desPtrPool.free != []
    ensures |s.desPool.live| == |s.desPtrPool.live|
  {
    hide ProcInv, PoolsInv, QueuesInv, StorageInv, FdsInv, ChansInv, WorkConserving;
    ReachableInv(s);
    assert s.desPool.live.Keys == s.desPtrPool.live.Keys;
  }
}
