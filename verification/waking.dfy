/** A blocked process becomes ready: each way to leave the waiting list keeps the invariants. */
module Waking {
  import opened Wrappers
  import opened Seqs
  import opened KernelState
  import opened Syscalls
  import opened Invariants
  import opened Frames
  import opened Links
  import opened Scheduling

  /** Process `p` has left the waiting list. */
  ghost predicate Leaves(s: State, s': State, p: Ref) {
    && p in s.waiting
    && (forall x: Ref :: x in s'.waiting <==> x in s.waiting && x != p)
    && SameFamily(s, s') && KeepsChildLinks(s, s') && SameFiles(s, s')
    && s'.zombie == s.zombie
    && forall x: Ref :: x in s.waiting ==> SameCall(s.pcb[x], s'.pcb[x])
  }

  /** `s1` is `s` without the entry that some blocked process had somewhere. */
  ghost predicate Released(s: State, s1: State) {
    && s1.running == s.running
    && s1.ready == s.ready && s1.waiting == s.waiting && s1.zombie == s.zombie
    && SameFamily(s, s1) && SameFiles(s, s1) && KeepsChildLinks(s, s1)
    && forall r: Ref :: s1.pcb[r].status == s.pcb[r].status && SameCall(s.pcb[r], s1.pcb[r])
  }

  lemma WakeLeaves(s: State, s1: State, p: Ref)
    requires ListsInv(s) && p in s.waiting && Released(s, s1)
    ensures Leaves(s, WakeReady(s1, p), p) && ListsInv(WakeReady(s1, p))
  {
    assert ListsInv(s1);
    WakeLists(s1, p);
    RemoveNoDup(s.waiting, p);
  }

  lemma LeavesFamily(s: State, s': State, p: Ref)
    requires PidsInv(s) && TreeInv(s) && Leaves(s, s', p)
    ensures PidsInv(s') && TreeInv(s')
  {
    FrameFamily(s, s');
  }

  lemma LeavesWakeUp(s: State, s': State, p: Ref)
    requires NoLostWakeUp(s) && Leaves(s, s', p)
    ensures NoLostWakeUp(s')
  {
  }

  lemma LeavesFiles(s: State, s': State, p: Ref)
    requires ResourcesInv(s) && FdsInv(s) && Leaves(s, s', p)
    ensures ResourcesInv(s') && FdsInv(s')
  {
  }

  lemma LeavesWaits(s: State, s': State, p: Ref)
    requires WaitsInv(s) && Leaves(s, s', p)
    requires forall x: Ref :: HasTimer(s.timers, x) && x != p ==> HasTimer(s'.timers, x)
    requires forall id, x: Ref :: id in s.queues && HasRef(s.queues[id].getters, x) && x != p ==>
               id in s'.queues && HasRef(s'.queues[id].getters, x)
    requires forall id, x: Ref :: id in s.queues && HasRef(s.queues[id].putters, x) && x != p ==>
               id in s'.queues && HasRef(s'.queues[id].putters, x)
    ensures WaitsInv(s')
  {
  }

  lemma LeavesTimers(s: State, s': State, p: Ref)
    requires TimersInv(s) && Leaves(s, s', p) && s.pcb[p].syscallNum != CALL_SLEEP
    requires s'.timers == s.timers && s'.timerPool == s.timerPool
    ensures TimersInv(s')
  {
  }

  lemma LeavesWaiters(s: State, s': State, p: Ref)
    requires WaitersInv(s) && PtrInv(s) && Leaves(s, s', p)
    requires s.pcb[p].syscallNum != CALL_GET && s.pcb[p].syscallNum != CALL_PUT
    requires s'.queues == s.queues && s'.ptrPool == s.ptrPool
    ensures WaitersInv(s') && PtrInv(s')
  {
  }

  // ---------- an expired timer ----------

  lemma FirstTimer(s: State)
    requires ListsInv(s) && TreeInv(s) && TimersInv(s) && s.timers != []
    ensures BlockedIn(s, s.timers[0].pcb, CALL_SLEEP)
    ensures s.pcb[s.timers[0].pcb].timer == None
  {
    assert s.timers[0] in s.timers;
  }

  lemma TimerLeaves(s: State)
    requires ListsInv(s) && s.timers != []
    requires s.timers[0].pcb in s.waiting && s.pcb[s.timers[0].pcb].timer == None
    ensures Leaves(s, WakeFirst(s), s.timers[0].pcb) && ListsInv(WakeFirst(s))
  {
    var t := s.timers[0];
    var s1 := s.(timers := s.timers[1..], timerPool := s.timerPool.Give(t.block));
    WakeLeaves(s, SetPcb(s1, t.pcb, s1.pcb[t.pcb].(timer := None)), t.pcb);
  }

  lemma TimerGone(s: State, s': State)
    requires TimersInv(s) && s.timers != []
    requires forall x: Ref :: BlockedIn(s, x, CALL_SLEEP) && x != s.timers[0].pcb ==> BlockedIn(s', x, CALL_SLEEP)
    requires s'.timers == s.timers[1..] && s'.timerPool == s.timerPool.Give(s.timers[0].block)
    ensures TimersInv(s')
    ensures forall x: Ref :: HasTimer(s.timers, x) && x != s.timers[0].pcb ==> HasTimer(s'.timers, x)
  {
    hide UniqueSleepers, Sorted, HasTimer, OwnedByTimer;
    HeadTimerLeaves(s.timers);
    assert s.timers[0] in s.timers;
    assert forall t :: t in s'.timers ==> t in s.timers && t.pcb != s.timers[0].pcb;
  }

  lemma TimerReason(s: State)
    requires ListsInv(s) && TreeInv(s) && TimersInv(s) && WaitsInv(s) && s.timers != []
    ensures TimersInv(WakeFirst(s)) && WaitsInv(WakeFirst(s))
  {
    FirstTimer(s);
    TimerLeaves(s);
    TimerGone(s, WakeFirst(s));
    LeavesWaits(s, WakeFirst(s), s.timers[0].pcb);
  }

  lemma WakeFirstKeeps(s: State)
    requires CoreInv(s) && s.timers != []
    ensures CoreInv(WakeFirst(s))
  {
    var s' := WakeFirst(s);
    var p := s.timers[0].pcb;
    FirstTimer(s);
    TimerLeaves(s);
    TimerReason(s);
    LeavesFamily(s, s', p);
    LeavesWakeUp(s, s', p);
    LeavesWaiters(s, s', p);
    LeavesFiles(s, s', p);
    s.timerPool.GiveKeeps(s.timers[0].block, MAX_NUM_PROCESSES);
  }

  // ---------- an exiting child ----------

  lemma NotifyLeaves(s: State, p: Ref)
    requires ListsInv(s) && p in s.waiting
    ensures Leaves(s, WakeReady(s, p), p) && ListsInv(WakeReady(s, p))
  {
    WakeLeaves(s, s, p);
  }

  lemma WakeParentKeeps(s: State, p: Ref)
    requires CoreInv(s) && BlockedIn(s, p, CALL_WAIT)
    ensures CoreInv(WakeReady(s, p))
  {
    var s' := WakeReady(s, p);
    NotifyLeaves(s, p);
    LeavesFamily(s, s', p);
    LeavesWakeUp(s, s', p);
    LeavesWaiters(s, s', p);
    LeavesTimers(s, s', p);
    LeavesWaits(s, s', p);
    LeavesFiles(s, s', p);
  }

  // ---------- a queue hands on ----------

  /** The head of one of the two lists of queue `id` is gone; the buffer may have changed. */
  ghost predicate LeavesQueue(s: State, s': State, id: int, get: bool) {
    && id in s.queues
    && var q := s.queues[id];
       var ls := if get then q.getters else q.putters;
       && ls != []
       && s'.ptrPool == s.ptrPool.Give(ls[0].block)
       && id in s'.queues && s'.queues.Keys == s.queues.Keys
       && s'.queues[id].getters == (if get then q.getters[1..] else q.getters)
       && s'.queues[id].putters == (if get then q.putters else q.putters[1..])
       && forall i :: i in s.queues && i != id ==> s'.queues[i] == s.queues[i]
  }

  function HeadWaiter(s: State, id: int, get: bool): Link
    requires id in s.queues
    requires if get then s.queues[id].getters != [] else s.queues[id].putters != []
  {
    if get then s.queues[id].getters[0] else s.queues[id].putters[0]
  }

  lemma HeadWaiterBlocked(s: State, id: int, get: bool)
    requires WaitersInv(s) && id in s.queues
    requires if get then s.queues[id].getters != [] else s.queues[id].putters != []
    ensures var l := HeadWaiter(s, id, get);
      && BlockedIn(s, l.pcb, if get then CALL_GET else CALL_PUT)
      && s.pcb[l.pcb].arg0 == id
      && l.block in s.ptrPool.live && s.ptrPool.live[l.block] == WaiterOf(l.pcb)
  {
    var q := s.queues[id];
    assert WaitersOk(s, q.getters, id, CALL_GET) && WaitersOk(s, q.putters, id, CALL_PUT);
    if get { assert q.getters[0] in q.getters; } else { assert q.putters[0] in q.putters; }
  }

  lemma WaitersStay(s: State, s': State, ls: seq<Link>, id: int, call: int, h: Link)
    requires WaitersOk(s, ls, id, call) && Leaves(s, s', h.pcb) && !HasRef(ls, h.pcb)
    requires s.ptrPool.live[h.block := WaiterOf(h.pcb)] == s.ptrPool.live
    requires s'.ptrPool == s.ptrPool.Give(h.block)
    ensures WaitersOk(s', ls, id, call)
  {
    forall l | l in ls
      ensures l.pcb != h.pcb && l.block != h.block
    {
      LinkHasRef(ls, l);
    }
  }

  lemma QueueLeavesWaiters(s: State, s': State, id: int, get: bool)
    requires WaitersInv(s) && LeavesQueue(s, s', id, get) && Leaves(s, s', HeadWaiter(s, id, get).pcb)
    ensures WaitersInv(s')
  {
    var h := HeadWaiter(s, id, get);
    HeadWaiterBlocked(s, id, get);
    assert s.ptrPool.live[h.block := WaiterOf(h.pcb)] == s.ptrPool.live;
    forall i | i in s'.queues
      ensures WaitersOk(s', s'.queues[i].getters, i, CALL_GET)
      ensures WaitersOk(s', s'.queues[i].putters, i, CALL_PUT)
    {
      QueueLeavesOne(s, i, id, get);
      var q := s.queues[i];
      assert WaitersOk(s, q.getters, i, CALL_GET) && WaitersOk(s, q.putters, i, CALL_PUT);
      if i == id {
        HeadLinkLeaves(if get then q.getters else q.putters);
      }
      WaitersStay(s, s', s'.queues[i].getters, i, CALL_GET, h);
      WaitersStay(s, s', s'.queues[i].putters, i, CALL_PUT, h);
    }
  }

  /** The head waiter of one list of a queue is in no other list of any queue. */
  lemma QueueLeavesOne(s: State, i: int, id: int, get: bool)
    requires WaitersInv(s) && i in s.queues && id in s.queues
    requires if get then s.queues[id].getters != [] else s.queues[id].putters != []
    ensures HasRef(s.queues[i].getters, HeadWaiter(s, id, get).pcb) ==> i == id && get
    ensures HasRef(s.queues[i].putters, HeadWaiter(s, id, get).pcb) ==> i == id && !get
  {
    HeadWaiterBlocked(s, id, get);
    assert WaitersOk(s, s.queues[i].getters, i, CALL_GET) && WaitersOk(s, s.queues[i].putters, i, CALL_PUT);
  }

  lemma QueueLeavesReason(s: State, s': State, id: int, get: bool)
    requires WaitersInv(s) && WaitsInv(s) && s'.timers == s.timers
    requires LeavesQueue(s, s', id, get) && Leaves(s, s', HeadWaiter(s, id, get).pcb)
    ensures WaitsInv(s')
  {
    var q := s.queues[id];
    assert WaitersOk(s, q.getters, id, CALL_GET) && WaitersOk(s, q.putters, id, CALL_PUT);
    HeadLinkLeaves(if get then q.getters else q.putters);
    LeavesWaits(s, s', HeadWaiter(s, id, get).pcb);
  }

  lemma QueueLeavesPtrs(s: State, s': State, id: int, get: bool)
    requires WaitersInv(s) && PtrInv(s)
    requires LeavesQueue(s, s', id, get) && Leaves(s, s', HeadWaiter(s, id, get).pcb)
    ensures PtrInv(s')
  {
    var q := s.queues[id];
    var h := HeadWaiter(s, id, get);
    HeadWaiterBlocked(s, id, get);
    assert WaitersOk(s, q.getters, id, CALL_GET) && WaitersOk(s, q.putters, id, CALL_PUT);
    HeadLinkLeaves(if get then q.getters else q.putters);
    forall b | b in s'.ptrPool.live
      ensures Owned(s', b, s'.ptrPool.live[b])
    {
      assert Owned(s, b, s.ptrPool.live[b]);
      if s.ptrPool.live[b] == WaiterOf(h.pcb) {
        SameLink(if get then q.getters else q.putters, Link(b, h.pcb), h);
      }
    }
  }

  lemma SameLink(ls: seq<Link>, a: Link, b: Link)
    requires UniqueRefs(ls) && a in ls && b in ls && a.pcb == b.pcb
    ensures a == b
  {
    var i :| 0 <= i < |ls| && ls[i] == a;
    var j :| 0 <= j < |ls| && ls[j] == b;
  }

  lemma QueueLeavesProc(s: State, s': State, id: int, get: bool)
    requires ProcInv(s) && ListsInv(s') && s'.timers == s.timers && s'.timerPool == s.timerPool
    requires LeavesQueue(s, s', id, get) && Leaves(s, s', HeadWaiter(s, id, get).pcb)
    ensures ProcInv(s')
  {
    var p := HeadWaiter(s, id, get).pcb;
    HeadWaiterBlocked(s, id, get);
    LeavesFamily(s, s', p);
    LeavesWakeUp(s, s', p);
    LeavesTimers(s, s', p);
    QueueLeavesReason(s, s', id, get);
    QueueLeavesWaiters(s, s', id, get);
    QueueLeavesPtrs(s, s', id, get);
  }
}
