/** Resources and descriptors: open, close and destroy keep both ends of every link. */
module Files {
  import opened Wrappers
  import opened Seqs
  import opened Pools
  import opened KernelState
  import opened Syscalls
  import opened Invariants
  import opened Frames
  import opened Scheduling

  /** `s'` is `s` with only resource and descriptor data changed. */
  ghost predicate OnlyFiles(s: State, s': State) {
    && s' == s.(pcb := s'.pcb, resPool := s'.resPool, resList := s'.resList,
                desPool := s'.desPool, desPtrPool := s'.desPtrPool)
    && forall r: Ref :: s'.pcb[r] == s.pcb[r].(lastFd := s'.pcb[r].lastFd, descriptors := s'.pcb[r].descriptors)
  }

  lemma FilesFrame(s: State, s': State)
    requires ListsInv(s) && OnlyFiles(s, s')
    ensures ListsInv(s') && SameFamily(s, s') && SameBlocked(s, s')
  {
  }

  lemma FilesKeep(s: State, s': State)
    requires ProcInv(s) && OnlyFiles(s, s')
    ensures ProcInv(s')
  {
    FilesFrame(s, s');
    FrameProc(s, s');
  }

  // ---------- a new resource ----------

  lemma AddResourceKeeps(s: State, id: int, rtype: int)
    requires CoreInv(s) && s.resPool.free != []
    requires ResourceById(s.resPool.live, s.resList, id).None?
    ensures CoreInv(AddResource(s, id, rtype))
    ensures s.resPool.free[0] in AddResource(s, id, rtype).resPool.live
  {
    AddResourceData(s, id, rtype);
    FilesKeep(s, AddResource(s, id, rtype));
  }

  lemma AddResourceData(s: State, id: int, rtype: int)
    requires ResourcesInv(s) && FdsInv(s) && s.resPool.Wf(MAX_NUM_RESOURCES) && s.resPool.free != []
    requires ResourceById(s.resPool.live, s.resList, id).None?
    ensures var s' := AddResource(s, id, rtype);
      ResourcesInv(s') && FdsInv(s') && s'.resPool.Wf(MAX_NUM_RESOURCES)
  {
    assert s.resPool.free[0] in s.resPool.free;
    s.resPool.TakeKeeps(Resource(id, rtype, []), MAX_NUM_RESOURCES);
    RegistryGrows(s.resPool.live, s.resList, s.resPool.free[0], Resource(id, rtype, []));
  }

  lemma RegistryGrows(res: map<nat, Resource>, list: seq<nat>, b: nat, r: Resource)
    requires RegistryOk(res, list) && b !in res && ResourceById(res, list, r.id).None?
    ensures RegistryOk(res[b := r], list + [b])
  {
  }

  // ---------- a new descriptor ----------

  /** Descriptor `d` is entered at the end of the list of its resource. */
  function Enter(res: map<nat, Resource>, d: Descriptor): map<nat, Resource>
    requires d.res in res
  {
    res[d.res := res[d.res].(descriptorPtrs := res[d.res].descriptorPtrs + [DescriptorPtr(d.ptr, d.block)])]
  }

  lemma EnterKeeps(des: map<nat, Descriptor>, res: map<nat, Resource>, list: seq<nat>, d: Descriptor)
    requires RegistryOk(res, list) && DescriptorsOk(des, res) && EntriesOk(des, res)
    requires d.res in res && d.block !in des && d.ptr == d.block
    ensures RegistryOk(Enter(res, d), list)
    ensures DescriptorsOk(des[d.block := d], Enter(res, d))
    ensures EntriesOk(des[d.block := d], Enter(res, d))
  {
    var des', res' := des[d.block := d], Enter(res, d);
    assert DescriptorPtr(d.ptr, d.block) !in res[d.res].descriptorPtrs;
    forall x | x in des'
      ensures DescriptorOk(des', res', x)
    {
      if x != d.block { assert DescriptorOk(des, res, x); }
    }
  }

  lemma AddDescriptorResources(s: State, rb: nat)
    requires ResourcesInv(s) && s.desPool.Wf(MAX_NUM_PROCESSES)
    requires s.running.Some? && rb in s.resPool.live && s.desPool.free != []
    ensures ResourcesInv(AddDescriptor(s, rb))
  {
    var b := s.desPool.free[0];
    var d := Descriptor(b, s.running.value, rb, s.pcb[s.running.value].lastFd, b);
    assert b in s.desPool.free;
    EnterKeeps(s.desPool.live, s.resPool.live, s.resList, d);
  }

  lemma FdsGrow(des: map<nat, Descriptor>, p: Pcb, r: Ref, d: Descriptor)
    requires FdsOk(des, p, r) && d.block !in des
    ensures FdsOk(des[d.block := d], p, r)
    ensures d.fd == p.lastFd && d.pcb == r ==>
      FdsOk(des[d.block := d], p.(lastFd := d.fd + 1, descriptors := p.descriptors + [d]), r)
  {
    if d.fd == p.lastFd && d.pcb == r {
      var ds := p.descriptors + [d];
      forall i, j | 0 <= i < j < |ds|
        ensures ds[i].fd < ds[j].fd
      {
        assert ds[i] in p.descriptors;
      }
    }
  }

  lemma AddDescriptorFds(s: State, rb: nat)
    requires FdsInv(s) && s.desPool.Wf(MAX_NUM_PROCESSES) && s.desPtrPool.free == s.desPool.free
    requires s.running.Some? && rb in s.resPool.live && s.desPool.free != []
    ensures FdsInv(AddDescriptor(s, rb))
  {
    var b := s.desPool.free[0];
    var d := Descriptor(b, s.running.value, rb, s.pcb[s.running.value].lastFd, b);
    assert b in s.desPool.free;
    forall r: Ref | Live(s, r)
      ensures FdsOk(AddDescriptor(s, rb).desPool.live, AddDescriptor(s, rb).pcb[r], r)
    {
      FdsGrow(s.desPool.live, s.pcb[r], r, d);
    }
  }

  lemma LiveUpdateKeeps(p: Pool<nat, Resource>, b: nat, res: Resource, capacity: nat)
    requires p.Wf(capacity) && b in p.live
    ensures p.(live := p.live[b := res]).Wf(capacity)
  {
    assert p.live[b := res].Keys == p.live.Keys;
    assert |p.live[b := res].Keys| == |p.live.Keys|;
  }

  lemma AddDescriptorPools(s: State, rb: nat)
    requires ResourcesInv(s) && PoolsInv(s)
    requires s.running.Some? && rb in s.resPool.live && s.desPool.free != []
    ensures PoolsInv(AddDescriptor(s, rb))
  {
    var s' := AddDescriptor(s, rb);
    var r := s.running.value;
    var b := s.desPool.free[0];
    s.desPool.TakeKeeps(Descriptor(b, r, rb, s.pcb[r].lastFd, b), MAX_NUM_PROCESSES);
    s.desPtrPool.TakeKeeps(b, MAX_NUM_PROCESSES);
    LiveUpdateKeeps(s.resPool, rb, s'.resPool.live[rb], MAX_NUM_RESOURCES);
  }

  lemma AddDescriptorOnly(s: State, rb: nat)
    requires s.running.Some? && rb in s.resPool.live && s.desPool.free != [] && s.desPtrPool.free != []
    ensures OnlyFiles(s, AddDescriptor(s, rb))
  {
  }

  lemma AddDescriptorKeeps(s: State, rb: nat)
    requires CoreInv(s) && s.running.Some? && rb in s.resPool.live && s.desPool.free != []
    ensures CoreInv(AddDescriptor(s, rb))
  {
    AddDescriptorOnly(s, rb);
    FilesKeep(s, AddDescriptor(s, rb));
    AddDescriptorResources(s, rb);
    AddDescriptorFds(s, rb);
    AddDescriptorPools(s, rb);
  }

  // ---------- a descriptor is closed ----------

  /** What the invariants say about entry `i` of the descriptors of `r`. */
  lemma DescriptorEntry(s: State, r: Ref, i: nat)
    requires ResourcesInv(s) && FdsInv(s) && Live(s, r) && i < |s.pcb[r].descriptors|
    ensures var d := s.pcb[r].descriptors[i];
      && d.block in s.desPool.live && s.desPool.live[d.block] == d && d.ptr == d.block && d.pcb == r
      && d.block in s.desPtrPool.live
      && d.res in s.resPool.live
      && DescriptorPtr(d.ptr, d.block) in s.resPool.live[d.res].descriptorPtrs
  {
    var d := s.pcb[r].descriptors[i];
    assert d in s.pcb[r].descriptors && FdsOk(s.desPool.live, s.pcb[r], r);
    assert DescriptorOk(s.desPool.live, s.resPool.live, d.block);
  }

  /** The entry of descriptor `d` leaves the list of its resource. */
  function Leave(res: map<nat, Resource>, d: Descriptor): map<nat, Resource>
    requires d.res in res
  {
    res[d.res := res[d.res].(descriptorPtrs :=
      Remove(res[d.res].descriptorPtrs, DescriptorPtr(d.ptr, d.block)))]
  }

  lemma LeaveKeeps(des: map<nat, Descriptor>, res: map<nat, Resource>, list: seq<nat>, d: Descriptor)
    requires RegistryOk(res, list) && DescriptorsOk(des, res) && EntriesOk(des, res)
    requires d.block in des && des[d.block] == d
    ensures d.res in res
    ensures RegistryOk(Leave(res, d), list)
    ensures DescriptorsOk(des - {d.block}, Leave(res, d))
    ensures EntriesOk(des - {d.block}, Leave(res, d))
  {
    assert DescriptorOk(des, res, d.block);
    var des', res' := des - {d.block}, Leave(res, d);
    RemoveNoDup(res[d.res].descriptorPtrs, DescriptorPtr(d.ptr, d.block));
    forall x | x in des'
      ensures DescriptorOk(des', res', x)
    {
      assert DescriptorOk(des, res, x);
    }
    forall rb, x | rb in res' && x in res'[rb].descriptorPtrs
      ensures EntryOk(des', rb, x)
    {
      assert x in res[rb].descriptorPtrs && EntryOk(des, rb, x);
    }
  }

  lemma DropDescriptorResources(s: State, i: nat)
    requires ResourcesInv(s) && FdsInv(s) && s.running.Some? && Live(s, s.running.value)
    requires i < |s.pcb[s.running.value].descriptors|
    ensures ResourcesInv(DropDescriptor(s, i))
  {
    var d := s.pcb[s.running.value].descriptors[i];
    DescriptorEntry(s, s.running.value, i);
    LeaveKeeps(s.desPool.live, s.resPool.live, s.resList, d);
  }

  lemma FdsAfterRemove(ds: seq<Descriptor>, i: nat)
    requires IncreasingFds(ds) && i < |ds|
    ensures IncreasingFds(RemoveAt(ds, i))
    ensures forall d :: d in RemoveAt(ds, i) ==> d in ds && d.fd != ds[i].fd
  {
    var ds' := RemoveAt(ds, i);
    assert forall k :: 0 <= k < |ds'| ==> ds'[k] == ds[if k < i then k else k + 1];
  }

  lemma FdsShrink(des: map<nat, Descriptor>, p: Pcb, r: Ref, i: nat)
    requires FdsOk(des, p, r) && i < |p.descriptors|
    ensures FdsOk(des - {p.descriptors[i].block}, p.(descriptors := RemoveAt(p.descriptors, i)), r)
  {
    FdsAfterRemove(p.descriptors, i);
    assert p.descriptors[i] in p.descriptors;
  }

  lemma FdsElsewhere(des: map<nat, Descriptor>, p: Pcb, r: Ref, d: Descriptor)
    requires FdsOk(des, p, r) && d.block in des && des[d.block] == d && d.pcb != r
    ensures FdsOk(des - {d.block}, p, r)
  {
  }

  lemma DropDescriptorFds(s: State, i: nat)
    requires ResourcesInv(s) && FdsInv(s) && s.running.Some? && Live(s, s.running.value)
    requires i < |s.pcb[s.running.value].descriptors|
    ensures FdsInv(DropDescriptor(s, i))
  {
    var r := s.running.value;
    var d := s.pcb[r].descriptors[i];
    DescriptorEntry(s, r, i);
    var s' := DropDescriptor(s, i);
    assert s'.desPool.live == s.desPool.live - {d.block};
    forall x: Ref | Live(s', x)
      ensures FdsOk(s'.desPool.live, s'.pcb[x], x)
    {
      if x == r {
        FdsShrink(s.desPool.live, s.pcb[r], r, i);
      } else {
        FdsElsewhere(s.desPool.live, s.pcb[x], x, d);
      }
    }
  }

  lemma DropDescriptorPools(s: State, i: nat)
    requires ResourcesInv(s) && FdsInv(s) && PoolsInv(s) && s.running.Some? && Live(s, s.running.value)
    requires i < |s.pcb[s.running.value].descriptors|
    ensures PoolsInv(DropDescriptor(s, i))
  {
    var s' := DropDescriptor(s, i);
    var d := s.pcb[s.running.value].descriptors[i];
    DescriptorEntry(s, s.running.value, i);
    s.desPool.GiveKeeps(d.block, MAX_NUM_PROCESSES);
    s.desPtrPool.GiveKeeps(d.ptr, MAX_NUM_PROCESSES);
    LiveUpdateKeeps(s.resPool, d.res, s'.resPool.live[d.res], MAX_NUM_RESOURCES);
  }

  lemma DropDescriptorOnly(s: State, i: nat)
    requires s.running.Some? && i < |s.pcb[s.running.value].descriptors|
    ensures OnlyFiles(s, DropDescriptor(s, i))
  {
  }

  lemma DropDescriptorKeeps(s: State, i: nat)
    requires CoreInv(s) && s.running.Some? && i < |s.pcb[s.running.value].descriptors|
    ensures CoreInv(DropDescriptor(s, i))
  {
    DropDescriptorOnly(s, i);
    FilesKeep(s, DropDescriptor(s, i));
    DropDescriptorResources(s, i);
    DropDescriptorFds(s, i);
    DropDescriptorPools(s, i);
  }

  // ---------- a resource is destroyed ----------

  function Destroyed(s: State, rb: nat): State {
    s.(resList := Remove(s.resList, rb), resPool := s.resPool.Give(rb))
  }

  lemma DestroyData(s: State, rb: nat)
    requires ResourcesInv(s) && FdsInv(s) && s.resPool.Wf(MAX_NUM_RESOURCES)
    requires rb in s.resPool.live && s.resPool.live[rb].descriptorPtrs == []
    ensures ResourcesInv(Destroyed(s, rb)) && FdsInv(Destroyed(s, rb))
    ensures Destroyed(s, rb).resPool.Wf(MAX_NUM_RESOURCES)
  {
    RemoveNoDup(s.resList, rb);
    s.resPool.GiveKeeps(rb, MAX_NUM_RESOURCES);
  }

  lemma DestroyKeeps(s: State, rb: nat)
    requires CoreInv(s) && rb in s.resPool.live && s.resPool.live[rb].descriptorPtrs == []
    ensures CoreInv(Destroyed(s, rb))
  {
    FilesKeep(s, Destroyed(s, rb));
    DestroyData(s, rb);
  }

  // ---------- the three calls ----------

  lemma OpenFoundKeeps(s: State, rb: nat)
    requires CoreInv(s) && s.running.Some? && rb in s.resPool.live
    ensures CoreInv(OpenFound(s, rb))
  {
    var r := s.running.value;
    var res := s.resPool.live[rb];
    if res.rtype != s.pcb[r].arg1 {
      ReturnKeeps(s, ERESOURCEOPEN);
    } else if ExclBit(s.pcb[r].arg2) && res.descriptorPtrs != [] {
      ReturnKeeps(s, ERESOURCENOEXCL);
    } else if s.desPool.free == [] {
      ReturnKeeps(s, ERESOURCENOFD);
    } else {
      AddDescriptorKeeps(s, rb);
      ReturnKeeps(AddDescriptor(s, rb), s.pcb[r].lastFd);
    }
  }

  lemma OpenKeeps(s: State)
    requires CoreInv(s) && s.running.Some? && OpenSafe(s)
    ensures CoreInv(DoOpen(s))
  {
    var p := s.pcb[s.running.value];
    var found := ResourceById(s.resPool.live, s.resList, p.arg0);
    if CreateBit(p.arg2) {
      if found.Some? {
        ReturnKeeps(s, ERESOURCECREATE);
      } else {
        AddResourceKeeps(s, p.arg0, p.arg1);
        OpenFoundKeeps(AddResource(s, p.arg0, p.arg1), s.resPool.free[0]);
      }
    } else if found.None? {
      ReturnKeeps(s, ERESOURCEOPEN);
    } else {
      OpenFoundKeeps(s, found.value);
    }
  }

  lemma CloseKeeps(s: State)
    requires CoreInv(s) && s.running.Some?
    ensures CoreInv(DoClose(s))
  {
    var p := s.pcb[s.running.value];
    var i := DescriptorByFd(p.descriptors, p.arg0);
    if i.None? {
      ReturnKeeps(s, ERESOURCECLOSE);
    } else {
      DropDescriptorKeeps(s, i.value);
      ReturnKeeps(DropDescriptor(s, i.value), 0);
    }
  }

  lemma DestroyCallKeeps(s: State)
    requires CoreInv(s) && s.running.Some?
    ensures CoreInv(DoDestroy(s))
  {
    var found := ResourceById(s.resPool.live, s.resList, s.pcb[s.running.value].arg0);
    if found.None? {
      ReturnKeeps(s, ERESOURCECLOSE);
    } else if s.resPool.live[found.value].descriptorPtrs != [] {
      ReturnKeeps(s, ERESOURCEINUSE);
    } else {
      DestroyKeeps(s, found.value);
      ReturnKeeps(Destroyed(s, found.value), 0);
    }
  }
}
