/** Every item the kernel hands to List_insert is in no list: blocks that are free are the
    blocks of no list item, and a child link moved by exit is not among init's. */
module Insertions {
  import opened KernelState
  import opened Syscalls
  import opened Invariants
  import opened Family

  /** Block `b` of the PCBPtr pool is the block of no child link and of no waiter. */
  ghost predicate FreeLink(s: State, b: nat) {
    && (forall p: Ref, l :: Live(s, p) && l in s.pcb[p].children ==> l.block != b)
    && (forall id, l :: id in s.queues && (l in s.queues[id].getters || l in s.queues[id].putters) ==> l.block != b)
  }

  ghost predicate FreeItem(s: State, b: nat) {
    forall id, i :: id in s.queues && i in s.queues[id].items ==> i.block != b
  }

  ghost predicate FreeTimer(s: State, b: nat) {
    forall t :: t in s.timers ==> t.block != b
  }

  ghost predicate FreeQueue(s: State, b: nat) {
    forall id :: id in s.queues ==> s.queues[id].block != b
  }

  ghost predicate FreeDescriptor(s: State, b: nat) {
    forall r: Ref, d :: Live(s, r) && d in s.pcb[r].descriptors ==> d.block != b
  }

  ghost predicate FreeEntry(s: State, b: nat) {
    forall rb, x :: rb in s.resPool.live && x in s.resPool.live[rb].descriptorPtrs ==> x.block != b
  }

  lemma FreePcbs(s: State, r: Ref)
    requires ListsInv(s) && s.pcbPool.Wf(MAX_NUM_PROCESSES) && r in s.pcbPool.free
    ensures r !in s.ready && r !in s.waiting && r !in s.zombie
  {
  }

  lemma FreeLinks(s: State, b: nat)
    requires ChildrenInv(s) && WaitersInv(s) && s.ptrPool.Wf(MAX_NUM_PROCESSES) && b in s.ptrPool.free
    ensures FreeLink(s, b)
  {
    forall p: Ref, l | Live(s, p) && l in s.pcb[p].children ensures l.block != b {
      assert ChildLinkOk(s, p, l);
    }
    forall id, l | id in s.queues && (l in s.queues[id].getters || l in s.queues[id].putters)
      ensures l.block != b
    {
      assert WaitersOk(s, s.queues[id].getters, id, CALL_GET) && WaitersOk(s, s.queues[id].putters, id, CALL_PUT);
    }
  }

  lemma FreeItems(s: State, b: nat)
    requires StorageInv(s) && s.itemPool.Wf(MAX_NUM_BQITEMS) && b in s.itemPool.free
    ensures FreeItem(s, b)
  {
  }

  lemma FreeTimers(s: State, b: nat)
    requires TimersInv(s) && s.timerPool.Wf(MAX_NUM_PROCESSES) && b in s.timerPool.free
    ensures FreeTimer(s, b)
  {
  }

  lemma FreeQueues(s: State, b: nat)
    requires StorageInv(s) && s.bqPool.Wf(MAX_NUM_BQUEUES) && b in s.bqPool.free
    ensures FreeQueue(s, b)
  {
  }

  lemma FreeResources(s: State, b: nat)
    requires ResourcesInv(s) && s.resPool.Wf(MAX_NUM_RESOURCES) && b in s.resPool.free
    ensures b !in s.resList
  {
  }

  lemma FreeDescriptors(s: State, b: nat)
    requires ResourcesInv(s) && FdsInv(s) && s.desPool.Wf(MAX_NUM_PROCESSES) && b in s.desPool.free
    ensures FreeDescriptor(s, b) && FreeEntry(s, b) && b in s.desPtrPool.free
  {
    forall r: Ref, d | Live(s, r) && d in s.pcb[r].descriptors ensures d.block != b {
      assert FdsOk(s.desPool.live, s.pcb[r], r);
    }
    forall rb, x | rb in s.resPool.live && x in s.resPool.live[rb].descriptorPtrs ensures x.block != b {
      assert EntryOk(s.desPool.live, rb, x);
    }
  }

  /** The free blocks of every pool are in none of the lists that such blocks go into. */
  ghost predicate FreeBlocksUnlisted(s: State) {
    && (forall r :: r in s.pcbPool.free ==> r !in s.ready && r !in s.waiting && r !in s.zombie)
    && (forall b :: b in s.ptrPool.free ==> FreeLink(s, b))
    && (forall b :: b in s.itemPool.free ==> FreeItem(s, b))
    && (forall b :: b in s.timerPool.free ==> FreeTimer(s, b))
    && (forall b :: b in s.bqPool.free ==> FreeQueue(s, b))
    && (forall b :: b in s.resPool.free ==> b !in s.resList)
    && (forall b :: b in s.desPool.free ==> FreeDescriptor(s, b))
    && (forall b :: b in s.desPtrPool.free ==> FreeEntry(s, b))
  }

  lemma BlocksUnlisted(s: State)
    requires ListsInv(s) && ChildrenInv(s) && WaitersInv(s) && TimersInv(s) && StorageInv(s)
    requires ResourcesInv(s) && FdsInv(s) && PoolsInv(s)
    ensures FreeBlocksUnlisted(s)
  {
    hide ListsInv, ChildrenInv, WaitersInv, TimersInv, StorageInv, ResourcesInv, FdsInv,
         FreeLink, FreeItem, FreeTimer, FreeQueue, FreeDescriptor, FreeEntry;
    SamePools(s);
    forall r | r in s.pcbPool.free ensures r !in s.ready && r !in s.waiting && r !in s.zombie { FreePcbs(s, r); }
    forall b | b in s.ptrPool.free ensures FreeLink(s, b) { FreeLinks(s, b); }
    forall b | b in s.itemPool.free ensures FreeItem(s, b) { FreeItems(s, b); }
    forall b | b in s.timerPool.free ensures FreeTimer(s, b) { FreeTimers(s, b); }
    forall b | b in s.bqPool.free ensures FreeQueue(s, b) { FreeQueues(s, b); }
    forall b | b in s.resPool.free ensures b !in s.resList { FreeResources(s, b); }
    forall b | b in s.desPool.free ensures FreeDescriptor(s, b) && FreeEntry(s, b) { FreeDescriptors(s, b); }
  }

  lemma SamePools(s: State)
    requires ResourcesInv(s)
    ensures s.desPool.free == s.desPtrPool.free
  {
  }

  lemma InvUnlisted(s: State)
    requires Inv(s)
    ensures FreeBlocksUnlisted(s)
  {
    hide WaitsInv, NoLostWakeUp, PtrInv, PidsInv, ParentsInv, QueuesInv, ChansInv, WorkConserving, FreeBlocksUnlisted;
    BlocksUnlisted(s);
  }

  /** The block that get takes out of a queue and refills is that of no other item. */
  lemma ItemBlocksDiffer(s: State, id: int, k: nat, id': int, k': nat)
    requires StorageInv(s) && id in s.queues && id' in s.queues
    requires k < |s.queues[id].items| && k' < |s.queues[id'].items| && (id != id' || k != k')
    ensures s.queues[id].items[k].block != s.queues[id'].items[k'].block
  {
    assert s.queues[id].items[k] in s.queues[id].items && s.queues[id'].items[k'] in s.queues[id'].items;
  }

  // ---------- links moved by exit ----------

  lemma {:induction false} TurnsKeep(s: State, r: Ref, n: nat)
    requires CoreInv(s) && Live(s, r) && r != s.initPcb
    ensures var t := Turns(s, r, n);
      CoreInv(t) && Live(t, r) && t.initPcb == s.initPcb
    decreases n
  {
    hide CoreInv, ReparentOne;
    if n > 0 && s.pcb[r].children != [] {
      ReparentOneKeeps(s, r);
      OneTurnFrame(s, r);
      TurnsKeep(ReparentOne(s, r), r, n - 1);
    }
  }

  lemma OneTurnFrame(s: State, r: Ref)
    requires s.pcb[r].children != []
    ensures ReparentOne(s, r).initPcb == s.initPcb && ReparentOne(s, r).pcbPool == s.pcbPool
  {
  }

  /** At every turn the link that is moved, and its block, are not in the list of init yet. */
  lemma MovedLinkIsNew(s: State, r: Ref, n: nat)
    requires CoreInv(s) && Live(s, r) && r != s.initPcb
    ensures var t := Turns(s, r, n);
      t.pcb[r].children != [] ==>
        forall l :: l in t.pcb[t.initPcb].children ==>
          l.pcb != t.pcb[r].children[0].pcb && l.block != t.pcb[r].children[0].block
  {
    hide CoreInv, Turns;
    TurnsKeep(s, r, n);
    var t := Turns(s, r, n);
    CoreFamily(t);
    if t.pcb[r].children != [] { LinksDiffer(t, r); }
  }

  lemma CoreFamily(s: State)
    requires CoreInv(s)
    ensures ChildrenInv(s) && Live(s, s.initPcb)
  {
  }

  lemma LinksDiffer(s: State, r: Ref)
    requires ChildrenInv(s) && Live(s, r) && Live(s, s.initPcb) && r != s.initPcb && s.pcb[r].children != []
    ensures forall l :: l in s.pcb[s.initPcb].children ==>
      l.pcb != s.pcb[r].children[0].pcb && l.block != s.pcb[r].children[0].block
  {
    var h := s.pcb[r].children[0];
    assert h in s.pcb[r].children && ChildLinkOk(s, r, h);
    forall l | l in s.pcb[s.initPcb].children
      ensures l.pcb != h.pcb && l.block != h.block
    {
      assert ChildLinkOk(s, s.initPcb, l);
    }
  }
}
