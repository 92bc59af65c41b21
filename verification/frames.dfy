/** Which parts of the state each invariant depends on: a step that leaves those parts
    alone keeps the invariant. */
module Frames {
  import opened KernelState
  import opened Invariants

  ghost predicate SameFamily(s: State, s': State) {
    && s'.initPcb == s.initPcb && s'.pcbPool == s.pcbPool && s'.lastPid == s.lastPid
    && forall r: Ref ::
         && s'.pcb[r].parent == s.pcb[r].parent && s'.pcb[r].children == s.pcb[r].children
         && s'.pcb[r].pid == s.pcb[r].pid && s'.pcb[r].timer == s.pcb[r].timer
  }

  /** Links in children lists stay allocated. */
  ghost predicate KeepsChildLinks(s: State, s': State) {
    forall b :: b in s.ptrPool.live && s.ptrPool.live[b].ChildOf? ==>
      b in s'.ptrPool.live && s'.ptrPool.live[b] == s.ptrPool.live[b]
  }

  /** Links in the lists of queues stay allocated. */
  ghost predicate KeepsWaiterLinks(s: State, s': State) {
    forall b :: b in s.ptrPool.live && s.ptrPool.live[b].WaiterOf? ==>
      b in s'.ptrPool.live && s'.ptrPool.live[b] == s.ptrPool.live[b]
  }

  ghost predicate Unwaited(q: Queue) {
    q.getters == [] && q.putters == []
  }

  /** Every queue that somebody waits on is in both, with the same lists of waiters. */
  ghost predicate SameWaiters(m: map<int, Queue>, m': map<int, Queue>) {
    && (forall id :: id in m ==> Unwaited(m[id]) || id in m')
    && (forall id :: id in m' ==> Unwaited(m'[id]) || id in m)
    && (forall id :: id in m && id in m' ==>
          m'[id].getters == m[id].getters && m'[id].putters == m[id].putters)
  }

  ghost predicate SameBlocked(s: State, s': State) {
    && s'.waiting == s.waiting && s'.timers == s.timers && SameWaiters(s.queues, s'.queues)
    && s'.timerPool == s.timerPool && KeepsWaiterLinks(s, s')
    && forall r: Ref :: r in s.waiting ==> SameCall(s.pcb[r], s'.pcb[r])
  }

  ghost predicate SameCall(p: Pcb, p': Pcb) {
    p'.syscallNum == p.syscallNum && p'.arg0 == p.arg0 && p'.arg1 == p.arg1
  }

  ghost predicate SameData(s: State, s': State) {
    && s'.queues == s.queues && s'.pcbPool == s.pcbPool && s'.ptrPool == s.ptrPool
    && s'.timerPool == s.timerPool && s'.bqPool == s.bqPool && s'.itemPool == s.itemPool
    && SameFiles(s, s')
  }

  ghost predicate SameFiles(s: State, s': State) {
    && s'.resPool == s.resPool && s'.resList == s.resList
    && s'.desPool == s.desPool && s'.desPtrPool == s.desPtrPool
    && forall r: Ref :: s'.pcb[r].descriptors == s.pcb[r].descriptors && s'.pcb[r].lastFd == s.pcb[r].lastFd
  }

  /** Nothing but the scheduling of processes that are not blocked has changed. */
  ghost predicate Quiet(s: State, s': State) {
    SameFamily(s, s') && SameBlocked(s, s') && SameData(s, s') && s'.zombie == s.zombie
  }

  lemma FrameFamily(s: State, s': State)
    requires PidsInv(s) && TreeInv(s) && SameFamily(s, s') && KeepsChildLinks(s, s')
    requires forall z: Ref :: z in s'.zombie ==> z in s.zombie || s.pcb[z].children == []
    ensures PidsInv(s') && TreeInv(s')
  {
    forall c: Ref | Live(s', c) && c != s'.initPcb
      ensures HasParent(s', c)
    {
      assert HasParent(s, c);
    }
    forall p: Ref, l | Live(s', p) && l in s'.pcb[p].children
      ensures ChildLinkOk(s', p, l)
    {
      assert ChildLinkOk(s, p, l);
    }
  }

  lemma FrameWaits(s: State, s': State)
    requires WaitsInv(s) && TimersInv(s) && WaitersInv(s) && SameBlocked(s, s')
    ensures WaitsInv(s') && TimersInv(s') && WaitersInv(s')
  {
    forall id | id in s'.queues
      ensures WaitersOk(s', s'.queues[id].getters, id, CALL_GET)
      ensures WaitersOk(s', s'.queues[id].putters, id, CALL_PUT)
    {
      if id in s.queues {
        assert WaitersOk(s, s.queues[id].getters, id, CALL_GET);
        assert WaitersOk(s, s.queues[id].putters, id, CALL_PUT);
      }
    }
  }

  lemma FramePtrs(s: State, s': State)
    requires PtrInv(s) && SameBlocked(s, s') && SameFamily(s, s') && s'.ptrPool == s.ptrPool
    ensures PtrInv(s')
  {
  }

  lemma FrameWakeUp(s: State, s': State)
    requires NoLostWakeUp(s) && SameBlocked(s, s') && SameFamily(s, s')
    requires forall z: Ref :: z in s'.zombie ==> z in s.zombie
    ensures NoLostWakeUp(s')
  {
  }

  lemma FrameData(s: State, s': State)
    requires DataInv(s) && SameData(s, s')
    ensures DataInv(s')
  {
  }

  /** Only things that no process waits for, and that no process owns, have changed. */
  lemma FrameProc(s: State, s': State)
    requires ProcInv(s) && ListsInv(s') && SameFamily(s, s') && SameBlocked(s, s') && s'.zombie == s.zombie
    requires s'.ptrPool == s.ptrPool
    ensures ProcInv(s')
  {
    FrameFamily(s, s');
    FrameWaits(s, s');
    FramePtrs(s, s');
    FrameWakeUp(s, s');
  }

  lemma FrameQuiet(s: State, s': State)
    requires CoreInv(s) && Quiet(s, s') && ListsInv(s')
    ensures CoreInv(s')
  {
    FrameProc(s, s');
    FrameData(s, s');
  }

  /** What a blocked process asked for, and who it is, has not changed. */
  ghost predicate SameRequest(p: Pcb, p': Pcb) {
    p'.arg1 == p.arg1 && p'.pid == p.pid
  }

  lemma FrameMatches(t: PcbTable, t': PcbTable, q: Queue, c: Chan)
    requires Matches(t, q, c)
    requires forall l :: l in q.getters || l in q.putters ==> SameRequest(t[l.pcb], t'[l.pcb])
    ensures Matches(t', q, c)
  {
    assert forall k :: 0 <= k < |q.putters| ==> q.putters[k] in q.putters;
    assert forall k :: 0 <= k < |q.getters| ==> q.getters[k] in q.getters;
    assert PutValues(t', q.putters) == PutValues(t, q.putters);
    assert Requests(t', q.getters) == Requests(t, q.getters);
  }

  lemma FrameChans(s: State, s': State)
    requires ChansInv(s) && WaitersInv(s)
    requires s'.queues == s.queues && s'.chans == s.chans
    requires forall r: Ref :: r in s.waiting ==> SameRequest(s.pcb[r], s'.pcb[r])
    ensures ChansInv(s')
  {
    forall id | id in s'.queues
      ensures Matches(s'.pcb, s'.queues[id], s'.chans[id])
    {
      assert WaitersOk(s, s.queues[id].getters, id, CALL_GET) && WaitersOk(s, s.queues[id].putters, id, CALL_PUT);
      FrameMatches(s.pcb, s'.pcb, s.queues[id], s.chans[id]);
    }
  }
}
