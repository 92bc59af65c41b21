/** What open, close and destroy do, in every case, and exactly when each case arises. */
module ResourceCalls {
  import opened Wrappers
  import opened Seqs
  import opened KernelState
  import opened Syscalls
  import opened Invariants
  import opened Bystanders
  import opened Faults
  import opened Descriptors
  import opened Outcomes

  // ---------- the mode of an open ----------

  const DSOS_CREATE: bv3 := 1
  const DSOS_EXCL: bv3 := 4

  lemma LowBits(low: bv3)
    ensures low as int % 2 == 1 <==> low & DSOS_CREATE != 0
    ensures low as int / 4 == 1 <==> low & DSOS_EXCL != 0
  {
  }

  /** The two flags are bits of the mode as the masks say; `high` is what the other bits make. */
  lemma ModeBits(low: bv3, high: int)
    ensures var mode := low as int + 8 * high;
      && (CreateBit(mode) <==> low & DSOS_CREATE != 0)
      && (ExclBit(mode) <==> low & DSOS_EXCL != 0)
  {
    LowBits(low);
    var l := low as int;
    assert (l + 8 * high) / 4 == l / 4 + 2 * high;
  }

  // ---------- destroy ----------

  /** A descriptor in use refers to a resource with this id. */
  ghost predicate InUse(s: State, id: int) {
    exists d :: d in s.desPool.live && s.desPool.live[d].res in s.resPool.live
             && s.resPool.live[s.desPool.live[d].res].id == id
  }

  /** The resource with this id is gone, and its block given back. */
  ghost predicate Unregisters(s: State, s': State, id: int)
    requires s.running.Some?
  {
    var r := s.running.value;
    && (exists b :: TakesBack(s.resPool, s'.resPool, b) && s.resPool.live[b].id == id
                 && Without(s.resList, s'.resList, b))
    && !HasResource(s', id)
    && s'.pcb == s.pcb[r := Called1(s.pcb[r], CALL_DESTROY, id).(retval := 0)]
    && s' == s.(resPool := s'.resPool, resList := s'.resList, pcb := s'.pcb)
  }

  lemma StepDestroy(s: State, op: Op)
    requires s.running.Some? && op.Destroy?
    ensures Safe(s, op) && Step(s, op) == DoDestroy(Trap(s, op))
  {
    hide DoDestroy, DoTick;
    DestroyBystander(Trap(s, op));
  }

  lemma ResourcesReady(s: State)
    requires Inv(s)
    ensures ResourcesInv(s)
  {
    hide ProcInv, PoolsInv, QueuesInv, StorageInv, ResourcesInv, FdsInv, ChansInv, WorkConserving;
  }

  lemma RegisteredExactly(s: State, id: int)
    requires ResourcesInv(s)
    ensures var found := ResourceById(s.resPool.live, s.resList, id);
      && (found.Some? <==> HasResource(s, id))
      && (found.Some? ==> forall b :: b in s.resPool.live && s.resPool.live[b].id == id ==> b == found.value)
  {
    hide DescriptorsOk, EntriesOk, Lockstep;
  }

  lemma InUseExactly(s: State, id: int, b: nat)
    requires ResourcesInv(s) && b in s.resPool.live && s.resPool.live[b].id == id
    ensures InUse(s, id) <==> s.resPool.live[b].descriptorPtrs != []
  {
    hide Lockstep;
    var ptrs := s.resPool.live[b].descriptorPtrs;
    if ptrs != [] {
      assert ptrs[0] in ptrs && EntryOk(s.desPool.live, b, ptrs[0]);
    }
    if InUse(s, id) {
      var d :| d in s.desPool.live && s.desPool.live[d].res in s.resPool.live
            && s.resPool.live[s.desPool.live[d].res].id == id;
      assert DescriptorOk(s.desPool.live, s.resPool.live, d);
    }
  }

  /** Destroy returns 0 exactly when the resource is registered and no descriptor in use refers
      to it, and then it is gone; otherwise the call only returns its error. */
  lemma DestroyExactly(s: State, id: int)
    requires Inv(s) && s.running.Some?
    ensures Safe(s, Destroy(id))
    ensures var s', p := Step(s, Destroy(id)), Called1(s.pcb[s.running.value], CALL_DESTROY, id);
      && (s'.pcb[s.running.value].retval == 0 <==> HasResource(s, id) && !InUse(s, id))
      && if !HasResource(s, id) then OnlyReturns(s, s', p, ERESOURCECLOSE)
         else if InUse(s, id) then OnlyReturns(s, s', p, ERESOURCEINUSE)
         else Unregisters(s, s', id)
  {
    hide Inv, Step, Safe, ResourcesInv, HasResource, InUse;
    ResourcesReady(s);
    StepDestroy(s, Destroy(id));
    RegisteredExactly(s, id);
    var found := ResourceById(s.resPool.live, s.resList, id);
    if found.Some? {
      InUseExactly(s, id, found.value);
      if !InUse(s, id) { DestroyRemoves(s, id, found.value); }
    }
  }

  lemma DestroyRemoves(s: State, id: int, b: nat)
    requires ResourcesInv(s) && s.running.Some? && ResourceById(s.resPool.live, s.resList, id) == Some(b)
    requires s.resPool.live[b].descriptorPtrs == []
    requires forall x :: x in s.resPool.live && s.resPool.live[x].id == id ==> x == b
    ensures Unregisters(s, DoDestroy(Trap(s, Destroy(id))), id)
  {
    hide ResourcesInv, ResourceById, Remove;
    RemoveIsWithout(s.resList, b);
    assert TakesBack(s.resPool, s.resPool.Give(b), b);
  }

  // ---------- close ----------

  /** The process has a descriptor with this number. */
  ghost predicate HasFd(p: Pcb, fd: int) {
    exists i :: 0 <= i < |p.descriptors| && p.descriptors[i].fd == fd
  }

  /** Descriptor number `i` of the caller is gone from its list, its entry from that of the
      resource, and the blocks of both are given back. */
  ghost predicate ClosesAt(s: State, s': State, i: nat, fd: int)
    requires s.running.Some?
  {
    var r := s.running.value;
    var ds := s.pcb[r].descriptors;
    && i < |ds| && ds[i].fd == fd
    && s'.pcb == s.pcb[r := Called1(s.pcb[r], CALL_CLOSE, fd).(descriptors := ds[..i] + ds[i + 1..], retval := 0)]
    && TakesBack(s.desPool, s'.desPool, ds[i].block)
    && TakesBack(s.desPtrPool, s'.desPtrPool, ds[i].ptr)
    && LosesEntry(s, s', ds[i])
    && s' == s.(pcb := s'.pcb, desPool := s'.desPool, desPtrPool := s'.desPtrPool, resPool := s'.resPool)
  }

  /** The entry of `d` leaves the list of its resource, and no other list changes. */
  ghost predicate LosesEntry(s: State, s': State, d: Descriptor) {
    && d.res in s.resPool.live && d.res in s'.resPool.live
    && var res, res' := s.resPool.live[d.res], s'.resPool.live[d.res];
    && Without(res.descriptorPtrs, res'.descriptorPtrs, DescriptorPtr(d.ptr, d.block))
    && res' == res.(descriptorPtrs := res'.descriptorPtrs)
    && s'.resPool == s.resPool.(live := s.resPool.live[d.res := res'])
  }

  lemma DescriptorReady(s: State, i: nat)
    requires Inv(s) && s.running.Some? && i < |s.pcb[s.running.value].descriptors|
    ensures var d := s.pcb[s.running.value].descriptors[i];
      && d.block in s.desPool.live && d.ptr in s.desPtrPool.live && d.res in s.resPool.live
      && DescriptorPtr(d.ptr, d.block) in s.resPool.live[d.res].descriptorPtrs
  {
    hide PidsInv, TreeInv, WaitsInv, TimersInv, WaitersInv, NoLostWakeUp, PtrInv, PoolsInv, QueuesInv, StorageInv;
    hide ChansInv, WorkConserving, RegistryOk, EntriesOk;
    var r := s.running.value;
    var d := s.pcb[r].descriptors[i];
    assert FdsOk(s.desPool.live, s.pcb[r], r) && d in s.pcb[r].descriptors;
    assert DescriptorOk(s.desPool.live, s.resPool.live, d.block);
  }

  lemma CloseRemoves(s: State, fd: int, i: nat)
    requires s.running.Some? && DescriptorByFd(s.pcb[s.running.value].descriptors, fd) == Some(i)
    requires var d := s.pcb[s.running.value].descriptors[i];
      && d.block in s.desPool.live && d.ptr in s.desPtrPool.live && d.res in s.resPool.live
      && DescriptorPtr(d.ptr, d.block) in s.resPool.live[d.res].descriptorPtrs
    ensures ClosesAt(s, DoClose(Trap(s, Close(fd))), i, fd)
  {
    hide DescriptorByFd, Remove;
    var d := s.pcb[s.running.value].descriptors[i];
    RemoveIsWithout(s.resPool.live[d.res].descriptorPtrs, DescriptorPtr(d.ptr, d.block));
    hide Without;
  }

  /** Close returns 0 exactly when the caller has a descriptor with this number, and then that
      descriptor is gone; otherwise the call only returns its error. */
  lemma CloseExactly(s: State, fd: int)
    requires Inv(s) && s.running.Some?
    ensures Safe(s, Close(fd))
    ensures var s', p := Step(s, Close(fd)), s.pcb[s.running.value];
      && (s'.pcb[s.running.value].retval == 0 <==> HasFd(p, fd))
      && if HasFd(p, fd) then exists i: nat :: ClosesAt(s, s', i, fd)
         else OnlyReturns(s, s', Called1(p, CALL_CLOSE, fd), ERESOURCECLOSE)
  {
    hide Inv, Step, Safe, ClosesAt, DropDescriptor;
    StepClose(s, Close(fd));
    var found := DescriptorByFd(s.pcb[s.running.value].descriptors, fd);
    if found.Some? {
      DescriptorReady(s, found.value);
      CloseRemoves(s, fd, found.value);
      ClosedReturns(s, Step(s, Close(fd)), found.value, fd);
    }
  }

  lemma ClosedReturns(s: State, s': State, i: nat, fd: int)
    requires s.running.Some? && ClosesAt(s, s', i, fd)
    ensures s'.pcb[s.running.value].retval == 0
  {
  }

  // ---------- open ----------

  /** The caller, otherwise `p`, has a new descriptor, numbered as its call returns, for the
      resource in block `rb`, which was `res` and has its entry at the end. */
  ghost predicate GainsDescriptor(s: State, s': State, p: Pcb, rb: nat, res: Resource)
    requires s.running.Some?
  {
    exists d: Descriptor :: NewIn(s, s', d)
      && d.pcb == s.running.value && d.res == rb && d.fd == p.lastFd
      && s'.pcb == s.pcb[s.running.value :=
           p.(descriptors := p.descriptors + [d], lastFd := p.lastFd + 1, retval := p.lastFd)]
      && s'.resPool.live == s.resPool.live[rb :=
           res.(descriptorPtrs := res.descriptorPtrs + [DescriptorPtr(d.ptr, d.block)])]
  }

  /** Descriptor `d` and its entry are in blocks that were free. */
  ghost predicate NewIn(s: State, s': State, d: Descriptor) {
    HandsOut(s.desPool, s'.desPool, d.block, d) && HandsOut(s.desPtrPool, s'.desPtrPool, d.ptr, d.block)
  }

  function OpenCall(p: Pcb, id: int, rtype: int, mode: int): Pcb {
    p.(syscallNum := CALL_OPEN, arg0 := id, arg1 := rtype, arg2 := mode)
  }

  /** The open of the resource in block `rb`, which there was. */
  ghost predicate OpensAt(s: State, s': State, rb: nat, id: int, rtype: int, mode: int)
    requires s.running.Some?
  {
    && rb in s.resPool.live && s.resPool.live[rb].id == id
    && GainsDescriptor(s, s', OpenCall(s.pcb[s.running.value], id, rtype, mode), rb, s.resPool.live[rb])
    && s'.resPool.free == s.resPool.free
    && s' == s.(pcb := s'.pcb, resPool := s'.resPool, desPool := s'.desPool, desPtrPool := s'.desPtrPool)
  }

  lemma AddGains(s: State, p: Pcb, rb: nat)
    requires s.running.Some? && rb in s.resPool.live && p == s.pcb[s.running.value]
    requires s.desPool.Wf(MAX_NUM_PROCESSES) && s.desPtrPool.Wf(MAX_NUM_PROCESSES)
    requires s.desPool.free != [] && s.desPtrPool.free != []
    ensures var s' := Return(AddDescriptor(s, rb), p.lastFd);
      && GainsDescriptor(s, s', p, rb, s.resPool.live[rb]) && s'.resPool.free == s.resPool.free
      && s' == s.(pcb := s'.pcb, resPool := s'.resPool, desPool := s'.desPool, desPtrPool := s'.desPtrPool)
  {
    var d := Descriptor(s.desPool.free[0], s.running.value, rb, p.lastFd, s.desPtrPool.free[0]);
    TakeHandsOut(s.desPool, d, MAX_NUM_PROCESSES);
    TakeHandsOut(s.desPtrPool, d.block, MAX_NUM_PROCESSES);
    hide HandsOut;
    assert NewIn(s, Return(AddDescriptor(s, rb), p.lastFd), d);
  }

  lemma TrapGains(s: State, op: Op, s': State, p: Pcb, rb: nat, res: Resource)
    requires s.running.Some? && !op.Tick? && GainsDescriptor(Trap(s, op), s', p, rb, res)
    ensures GainsDescriptor(s, s', p, rb, res)
  {
    hide NewIn;
    var t := Trap(s, op);
    var d: Descriptor :| NewIn(t, s', d)
      && d.pcb == s.running.value && d.res == rb && d.fd == p.lastFd
      && s'.pcb == t.pcb[s.running.value :=
           p.(descriptors := p.descriptors + [d], lastFd := p.lastFd + 1, retval := p.lastFd)]
      && s'.resPool.live == t.resPool.live[rb :=
           res.(descriptorPtrs := res.descriptorPtrs + [DescriptorPtr(d.ptr, d.block)])];
    assert NewIn(s, s', d) by { TrapNewIn(s, op, s', d); }
  }

  lemma TrapNewIn(s: State, op: Op, s': State, d: Descriptor)
    requires s.running.Some? && !op.Tick? && NewIn(Trap(s, op), s', d)
    ensures NewIn(s, s', d)
  {
  }

  /** An open without DSOS_CREATE that succeeds adds one descriptor, and that is all it does. */
  lemma OpenAdds(s: State, id: int, rtype: int, mode: int) returns (rb: nat)
    requires Inv(s) && s.running.Some? && !CreateBit(mode) && Opens(s, id, rtype, mode)
    ensures Safe(s, Open(id, rtype, mode))
    ensures OpensAt(s, Step(s, Open(id, rtype, mode)), rb, id, rtype, mode)
  {
    hide CoreInv, ChansInv, WorkConserving, DoOpen, Step, Safe, ResourceById, ResourcesInv, FdsInv;
    hide GainsDescriptor, AddDescriptor;
    var op := Open(id, rtype, mode);
    OpenReady(s, op);
    var t, r := Trap(s, op), s.running.value;
    OpenOutcome(t);
    StepOpen(s, op);
    rb := ResourceById(s.resPool.live, s.resList, id).value;
    AddGains(t, t.pcb[r], rb);
    TrapGains(s, op, Step(s, op), t.pcb[r], rb, s.resPool.live[rb]);
  }

  /** Resource `id` is registered, behind the others, in block `rb`, which was free. It has the
      caller's new descriptor, if there is one left; otherwise the call returns its error. */
  ghost predicate CreatesAt(s: State, s': State, rb: nat, id: int, rtype: int, mode: int)
    requires s.running.Some?
  {
    var r := s.running.value;
    var p, res := OpenCall(s.pcb[r], id, rtype, mode), Resource(id, rtype, []);
    && rb !in s.resPool.live && s.resPool.free == [rb] + s'.resPool.free
    && s'.resList == s.resList + [rb]
    && (if |s.desPool.live| < MAX_NUM_PROCESSES then GainsDescriptor(s, s', p, rb, res)
        else
          && s'.resPool.live == s.resPool.live[rb := res] && s'.desPool == s.desPool && s'.desPtrPool == s.desPtrPool
          && s'.pcb == s.pcb[r := p.(retval := ERESOURCENOFD)])
    && s' == s.(pcb := s'.pcb, resPool := s'.resPool, resList := s'.resList,
                desPool := s'.desPool, desPtrPool := s'.desPtrPool)
  }

  lemma CreateAdds(s: State, id: int, rtype: int, mode: int)
    requires Inv(s) && s.running.Some? && CreateBit(mode) && Safe(s, Open(id, rtype, mode)) && !HasResource(s, id)
    ensures s.resPool.free != []
    ensures CreatesAt(s, Step(s, Open(id, rtype, mode)), s.resPool.free[0], id, rtype, mode)
  {
    hide Inv, DoOpen, Step, ResourcesInv, ResourceById, OpenSafe, HasResource, CreatesAt;
    var op := Open(id, rtype, mode);
    OpenPools(s);
    PoolsInStep(s);
    ResourcesReady(s);
    RegisteredExactly(s, id);
    StepOpen(s, op);
    CreateCase(Trap(s, op), id, rtype, mode);
    TrapCreates(s, op, Step(s, op), s.resPool.free[0]);
  }

  lemma OpenPools(s: State)
    requires Inv(s)
    ensures s.resPool.Wf(MAX_NUM_RESOURCES) && s.desPool.Wf(MAX_NUM_PROCESSES)
  {
    hide ProcInv, QueuesInv, StorageInv, ResourcesInv, FdsInv, ChansInv, WorkConserving;
  }

  lemma CreateRefused(s: State, id: int, rtype: int, mode: int)
    requires Inv(s) && s.running.Some? && CreateBit(mode) && Safe(s, Open(id, rtype, mode)) && HasResource(s, id)
    ensures OnlyReturns(s, Step(s, Open(id, rtype, mode)), OpenCall(s.pcb[s.running.value], id, rtype, mode),
                        ERESOURCECREATE)
  {
    hide Inv, Step, ResourcesInv, ResourceById, OpenSafe, HasResource, OpenFound;
    ResourcesReady(s);
    RegisteredExactly(s, id);
    StepOpen(s, Open(id, rtype, mode));
  }

  lemma PoolsInStep(s: State)
    requires Inv(s)
    ensures s.desPtrPool.Wf(MAX_NUM_PROCESSES) && s.desPtrPool.free == s.desPool.free
  {
    hide ProcInv, QueuesInv, StorageInv, RegistryOk, DescriptorsOk, EntriesOk, FdsInv, ChansInv, WorkConserving;
  }

  lemma CreateCase(s: State, id: int, rtype: int, mode: int)
    requires s.running.Some? && CreateBit(mode) && OpenSafe(s)
    requires s.pcb[s.running.value] == OpenCall(s.pcb[s.running.value], id, rtype, mode)
    requires s.resPool.Wf(MAX_NUM_RESOURCES) && s.desPool.Wf(MAX_NUM_PROCESSES)
    requires s.desPtrPool.Wf(MAX_NUM_PROCESSES) && s.desPtrPool.free == s.desPool.free
    requires ResourceById(s.resPool.live, s.resList, id).None?
    ensures s.resPool.free != [] && CreatesAt(s, DoOpen(s), s.resPool.free[0], id, rtype, mode)
  {
    hide ResourceById, AddDescriptor, GainsDescriptor;
    var p := s.pcb[s.running.value];
    var u, rb := AddResource(s, id, rtype), s.resPool.free[0];
    assert rb in s.resPool.free;
    RoomExactly(s.desPool, MAX_NUM_PROCESSES);
    if s.desPool.free != [] {
      AddGains(u, p, rb);
      AfterAdding(s, u, Return(AddDescriptor(u, rb), p.lastFd), p, rb, Resource(id, rtype, []));
    }
  }

  lemma AfterAdding(s: State, u: State, s': State, p: Pcb, rb: nat, res: Resource)
    requires u == s.(resPool := u.resPool, resList := u.resList) && u.resPool.live == s.resPool.live[rb := res]
    requires s.running.Some? && GainsDescriptor(u, s', p, rb, res)
    ensures GainsDescriptor(s, s', p, rb, res)
  {
    hide HandsOut;
    var d: Descriptor :| NewIn(u, s', d)
      && d.pcb == s.running.value && d.res == rb && d.fd == p.lastFd
      && s'.pcb == u.pcb[s.running.value :=
           p.(descriptors := p.descriptors + [d], lastFd := p.lastFd + 1, retval := p.lastFd)]
      && s'.resPool.live == u.resPool.live[rb :=
           res.(descriptorPtrs := res.descriptorPtrs + [DescriptorPtr(d.ptr, d.block)])];
    assert NewIn(s, s', d);
  }

  lemma TrapCreates(s: State, op: Op, s': State, rb: nat)
    requires s.running.Some? && op.Open? && CreatesAt(Trap(s, op), s', rb, op.id, op.rtype, op.mode)
    ensures CreatesAt(s, s', rb, op.id, op.rtype, op.mode)
  {
    hide GainsDescriptor;
    var p := Trap(s, op).pcb[s.running.value];
    if |s.desPool.live| < MAX_NUM_PROCESSES {
      TrapGains(s, op, s', p, rb, Resource(op.id, op.rtype, []));
    }
  }
}
