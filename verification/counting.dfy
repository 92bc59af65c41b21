/** How many blocks of each pool are in use, and which pools can never run out. */
module Counting {
  import opened Wrappers
  import opened Seqs
  import opened KernelState
  import opened Syscalls
  import opened Invariants
  import opened Waking

  ghost predicate Injective<B(!new), U>(m: map<B, U>) {
    forall a, b :: a in m && b in m && a != b ==> m[a] != m[b]
  }

  // ---------- timers ----------

  /** Every timer block belongs to a different sleeping process. */
  lemma TimerBlocksBySleeper(s: State)
    requires TimersInv(s)
    ensures Injective(s.timerPool.live)
    ensures forall b :: b in s.timerPool.live ==> BlockedIn(s, s.timerPool.live[b], CALL_SLEEP)
  {
    forall b | b in s.timerPool.live
      ensures BlockedIn(s, s.timerPool.live[b], CALL_SLEEP)
    {
      assert OwnedByTimer(s.timers, b, s.timerPool.live[b]);
    }
    forall a, b | a in s.timerPool.live && b in s.timerPool.live && s.timerPool.live[a] == s.timerPool.live[b]
      ensures a == b
    {
      assert OwnedByTimer(s.timers, a, s.timerPool.live[a]) && OwnedByTimer(s.timers, b, s.timerPool.live[b]);
    }
  }

  /** A pool whose blocks are noted with distinct members of `users` has no more blocks in
      use than there are users. */
  lemma {:induction false} UsersBound<B(!new), U(!new)>(live: map<B, U>, users: set<U>)
    requires Injective(live)
    requires forall b :: b in live ==> live[b] in users
    ensures |live| <= |users|
  {
    var image := set b | b in live :: live[b];
    BijectionCard(live, image);
    SubsetCard(image, users);
  }

  ghost function AllPcbs(): (all: set<Ref>)
    ensures forall r: Ref :: r in all
    ensures |all| == MAX_NUM_PROCESSES
  {
    var refs := AllRefs();
    assert NoDup(refs);
    NoDupCard(refs);
    assert forall r: Ref :: r in refs by {
      forall r: Ref ensures r in refs { assert refs[r] == r; }
    }
    set r | r in refs
  }

  lemma TimerPoolSize(s: State)
    requires CoreInv(s)
    ensures |s.timerPool.free| + |s.timerPool.live| == MAX_NUM_PROCESSES
  {
  }

  /** While a process is running, a timer can always be allocated: the running process has
      none, and there are as many timers as processes. */
  lemma TimersNeverRunOut(s: State)
    requires Inv(s) && s.running.Some?
    ensures s.timerPool.free != []
  {
    hide DataInv, TreeInv, WaitersInv, WaitsInv, PtrInv, NoLostWakeUp, ChansInv, PidsInv, TimersInv;
    var others := AllPcbs() - {s.running.value};
    TimerBlocksBySleeper(s);
    TimerPoolSize(s);
    forall b | b in s.timerPool.live
      ensures s.timerPool.live[b] in others
    {
      assert BlockedIn(s, s.timerPool.live[b], CALL_SLEEP);
    }
    UsersBound(s.timerPool.live, others);
    assert AllPcbs() == others + {s.running.value};
  }

  // ---------- links ----------

  /** The processes blocked on a queue. */
  ghost function QueueWaiters(s: State): set<Ref> {
    set r | r in s.waiting && s.pcb[r].syscallNum in {CALL_GET, CALL_PUT}
  }

  ghost function Children(s: State): set<Owner> {
    set c | c in s.pcbPool.live && c != s.initPcb :: ChildOf(c)
  }

  ghost function Waiters(s: State): set<Owner> {
    set r | r in QueueWaiters(s) :: WaiterOf(r)
  }

  lemma LinkOwners(s: State, b: nat)
    requires PtrInv(s) && b in s.ptrPool.live
    ensures s.ptrPool.live[b] in Children(s) + Waiters(s)
  {
    assert Owned(s, b, s.ptrPool.live[b]);
  }

  lemma OneBlockEach(s: State, a: nat, b: nat)
    requires PtrInv(s) && ParentsInv(s) && ChildrenInv(s) && WaitersInv(s) && ListsInv(s)
    requires a in s.ptrPool.live && b in s.ptrPool.live && s.ptrPool.live[a] == s.ptrPool.live[b]
    ensures a == b
  {
    assert Owned(s, a, s.ptrPool.live[a]) && Owned(s, b, s.ptrPool.live[b]);
    match s.ptrPool.live[a] {
      case ChildOf(c) =>
        assert HasParent(s, c);
        SameLink(s.pcb[s.pcb[c].parent.value].children, Link(a, c), Link(b, c));
      case WaiterOf(r) =>
        var q := s.queues[s.pcb[r].arg0];
        assert WaitersOk(s, q.getters, s.pcb[r].arg0, CALL_GET) && WaitersOk(s, q.putters, s.pcb[r].arg0, CALL_PUT);
        SameLink(if s.pcb[r].syscallNum == CALL_GET then q.getters else q.putters, Link(a, r), Link(b, r));
    }
  }

  lemma EveryOwnerHasABlock(s: State, o: Owner)
    requires ParentsInv(s) && ChildrenInv(s) && WaitersInv(s) && WaitsInv(s)
    requires o in Children(s) + Waiters(s)
    ensures exists b :: b in s.ptrPool.live && s.ptrPool.live[b] == o
  {
    match o {
      case ChildOf(c) =>
        assert HasParent(s, c);
        var ls := s.pcb[s.pcb[c].parent.value].children;
        var k :| 0 <= k < |ls| && ls[k].pcb == c;
        assert ls[k] in ls && ChildLinkOk(s, s.pcb[c].parent.value, ls[k]);
      case WaiterOf(r) =>
        var q := s.queues[s.pcb[r].arg0];
        var ls := if s.pcb[r].syscallNum == CALL_GET then q.getters else q.putters;
        assert WaitersOk(s, ls, s.pcb[r].arg0, s.pcb[r].syscallNum);
        var k :| 0 <= k < |ls| && ls[k].pcb == r;
        assert ls[k] in ls;
    }
  }

  lemma OwnersCount(s: State)
    requires Live(s, s.initPcb)
    ensures |Children(s) + Waiters(s)| == |s.pcbPool.live| - 1 + |QueueWaiters(s)|
  {
    var born := s.pcbPool.live - {s.initPcb};
    var childOf := map c | c in born :: ChildOf(c);
    forall o | o in Children(s)
      ensures exists c :: c in childOf && childOf[c] == o
    {
      assert childOf[o.child] == o;
    }
    BijectionCard(childOf, Children(s));
    assert childOf.Keys == s.pcbPool.live.Keys - {s.initPcb};
    assert |childOf| == |childOf.Keys|;
    var waiterOf := map r | r in QueueWaiters(s) :: WaiterOf(r);
    forall o | o in Waiters(s)
      ensures exists r :: r in waiterOf && waiterOf[r] == o
    {
      assert waiterOf[o.waiter] == o;
    }
    BijectionCard(waiterOf, Waiters(s));
    assert waiterOf.Keys == QueueWaiters(s);
    assert |waiterOf| == |waiterOf.Keys|;
    assert Children(s) !! Waiters(s);
  }

  /** The blocks of the PCBPtr pool in use are exactly one for every process but init, and
      one more for every process blocked on a queue. */
  lemma LinkCount(s: State)
    requires Inv(s)
    ensures |s.ptrPool.live| == |s.pcbPool.live| - 1 + |QueueWaiters(s)|
  {
    LinkBijection(s);
    OwnersCount(s);
  }

  lemma LinkBijection(s: State)
    requires ProcInv(s)
    ensures |s.ptrPool.live| == |Children(s) + Waiters(s)|
  {
    hide ListsInv, PidsInv, WaitsInv, TimersInv, WaitersInv, NoLostWakeUp, PtrInv, ParentsInv, ChildrenInv;
    hide Children, Waiters;
    forall a, b | a in s.ptrPool.live && b in s.ptrPool.live && s.ptrPool.live[a] == s.ptrPool.live[b]
      ensures a == b
    {
      OneBlockEach(s, a, b);
    }
    forall b | b in s.ptrPool.live
      ensures s.ptrPool.live[b] in Children(s) + Waiters(s)
    {
      LinkOwners(s, b);
    }
    forall o | o in Children(s) + Waiters(s)
      ensures exists b :: b in s.ptrPool.live && s.ptrPool.live[b] == o
    {
      EveryOwnerHasABlock(s, o);
    }
    BijectionCard(s.ptrPool.live, Children(s) + Waiters(s));
  }

  // ---------- consequences ----------

  lemma QueueWaitersBound(s: State)
    requires ListsInv(s) && s.running.Some?
    ensures |QueueWaiters(s)| <= |s.pcbPool.live| - 1
  {
    var others := s.pcbPool.live.Keys - {s.running.value};
    forall r | r in QueueWaiters(s) ensures r in others {
      assert r in s.waiting && Live(s, r);
    }
    SubsetCard(QueueWaiters(s), others);
    assert s.pcbPool.live.Keys == others + {s.running.value};
  }

  lemma LinkPoolSize(s: State)
    requires CoreInv(s)
    ensures |s.ptrPool.free| + |s.ptrPool.live| == MAX_NUM_PROCESSES
    ensures ListsInv(s)
  {
  }

  /** The PCBPtr pool is empty exactly when the processes but init and the processes blocked
      on queues are together as many as its blocks. */
  lemma LinksRunOutExactly(s: State)
    requires Inv(s)
    ensures s.ptrPool.free == [] <==> |s.pcbPool.live| - 1 + |QueueWaiters(s)| == MAX_NUM_PROCESSES
  {
    LinkCount(s);
    LinkPoolSize(s);
  }

  /** With at most half as many processes as PCB blocks the PCBPtr pool cannot be empty. */
  lemma HalfLoadIsSafe(s: State)
    requires Inv(s) && s.running.Some?
    requires |s.pcbPool.live| <= MAX_NUM_PROCESSES / 2
    ensures s.ptrPool.free != []
  {
    LinksRunOutExactly(s);
    LinkPoolSize(s);
    QueueWaitersBound(s);
  }

  // ---------- sums over queues ----------

  ghost function Pick<K, V>(m: map<K, V>): (k: K)
    requires |m| != 0
    ensures k in m
  {
    var k :| k in m;
    k
  }

  ghost function Total(m: map<int, Queue>, f: Queue -> nat): nat
    decreases |m|
  {
    if |m| == 0 then 0
    else
      var id := Pick(m);
      assert m.Keys == (m - {id}).Keys + {id};
      f(m[id]) + Total(m - {id}, f)
  }

  ghost function WithLabel<K(!new)>(labels: map<K, int>, id: int): set<K> {
    set k | k in labels && labels[k] == id
  }

  lemma LabelsElsewhere<K(!new)>(labels: map<K, int>, id: int)
    ensures var here := WithLabel(labels, id);
      var rest := labels - here;
      && |labels| == |rest| + |here|
      && (forall k :: k in rest <==> k in labels && labels[k] != id)
      && forall i :: i != id ==> WithLabel(rest, i) == WithLabel(labels, i)
  {
    var here := WithLabel(labels, id);
    var rest := labels - here;
    assert labels.Keys == rest.Keys + here && rest.Keys !! here;
    assert |labels.Keys| == |rest.Keys| + |here|;
  }

  /** Things labelled with queues add up queue by queue. */
  lemma {:induction false} LabelsAddUp<K(!new)>(labels: map<K, int>, m: map<int, Queue>, f: Queue -> nat)
    requires forall k :: k in labels ==> labels[k] in m
    requires forall id :: id in m ==> |WithLabel(labels, id)| == f(m[id])
    ensures |labels| == Total(m, f)
    decreases |m|
  {
    if |m| == 0 {
      assert labels == map[];
    } else {
      var id := Pick(m);
      assert m.Keys == (m - {id}).Keys + {id};
      var rest := labels - WithLabel(labels, id);
      LabelsElsewhere(labels, id);
      forall i | i in m - {id}
        ensures |WithLabel(rest, i)| == f(m[i])
      {
        assert WithLabel(rest, i) == WithLabel(labels, i);
      }
      LabelsAddUp(rest, m - {id}, f);
    }
  }

  function Buffered(q: Queue): nat { |q.items| }

  function Blocked(q: Queue): nat { |q.getters| + |q.putters| }

  lemma ItemBlocksOf(s: State, id: int)
    requires QueuesInv(s) && StorageInv(s) && id in s.queues
    ensures |WithLabel(s.itemPool.live, id)| == |s.queues[id].items|
  {
    var items := s.queues[id].items;
    var blocks := seq(|items|, i requires 0 <= i < |items| => items[i].block);
    assert NoDup(blocks);
    NoDupCard(blocks);
    forall b | b in WithLabel(s.itemPool.live, id)
      ensures b in blocks
    {
      var i :| 0 <= i < |items| && items[i].block == b;
      assert blocks[i] == b;
    }
    forall b | b in blocks
      ensures b in WithLabel(s.itemPool.live, id)
    {
      var i :| 0 <= i < |blocks| && blocks[i] == b;
      assert items[i] in items;
    }
    assert WithLabel(s.itemPool.live, id) == set b | b in blocks;
  }

  /** Item blocks in use are the items buffered in the registered queues, and queue blocks
      in use are the registered queues. */
  lemma StorageCount(s: State)
    requires Inv(s)
    ensures |s.itemPool.live| == Total(s.queues, Buffered)
    ensures |s.bqPool.live| == |s.queues|
  {
    StorageCountOf(s);
  }

  lemma StorageCountOf(s: State)
    requires QueuesInv(s) && StorageInv(s)
    ensures |s.itemPool.live| == Total(s.queues, Buffered)
    ensures |s.bqPool.live| == |s.queues|
  {
    forall id | id in s.queues
      ensures |WithLabel(s.itemPool.live, id)| == |s.queues[id].items|
    {
      ItemBlocksOf(s, id);
    }
    LabelsAddUp(s.itemPool.live, s.queues, Buffered);
    forall id | id in s.queues.Keys
      ensures exists b :: b in s.bqPool.live && s.bqPool.live[b] == id
    {
      assert s.bqPool.live[s.queues[id].block] == id;
    }
    BijectionCard(s.bqPool.live, s.queues.Keys);
    assert |s.queues| == |s.queues.Keys|;
  }

  /** The queue each blocked process waits on. */
  ghost function WaitsOnQueue(s: State): map<Ref, int> {
    map r | r in QueueWaiters(s) :: s.pcb[r].arg0
  }

  lemma RefsCount(ls: seq<Link>)
    requires UniqueRefs(ls)
    ensures |set l | l in ls :: l.pcb| == |ls|
  {
    var refs := seq(|ls|, i requires 0 <= i < |ls| => ls[i].pcb);
    assert NoDup(refs);
    NoDupCard(refs);
    forall l | l in ls
      ensures l.pcb in refs
    {
      var i :| 0 <= i < |ls| && ls[i] == l;
      assert refs[i] == l.pcb;
    }
    forall r | r in refs
      ensures r in (set l | l in ls :: l.pcb)
    {
      var i :| 0 <= i < |refs| && refs[i] == r;
      assert ls[i] in ls;
    }
    assert (set l | l in ls :: l.pcb) == set r | r in refs;
  }

  lemma WaitersOfQueue(s: State, id: int)
    requires ListsInv(s) && WaitsInv(s) && WaitersInv(s) && QueuesInv(s) && id in s.queues
    ensures |WithLabel(WaitsOnQueue(s), id)| == Blocked(s.queues[id])
  {
    var q := s.queues[id];
    assert WaitersOk(s, q.getters, id, CALL_GET) && WaitersOk(s, q.putters, id, CALL_PUT);
    var ls := if q.getters != [] then q.getters else q.putters;
    var refs := set l | l in ls :: l.pcb;
    RefsCount(ls);
    forall r | r in WithLabel(WaitsOnQueue(s), id)
      ensures r in refs
    {
      assert HasRef(ls, r);
      var k :| 0 <= k < |ls| && ls[k].pcb == r;
      assert ls[k] in ls;
    }
    assert WithLabel(WaitsOnQueue(s), id) == refs;
  }

  /** The processes blocked on queues are the entries of all getter and putter lists: nobody
      is entered twice. */
  lemma WaitersAddUp(s: State)
    requires Inv(s)
    ensures |QueueWaiters(s)| == Total(s.queues, Blocked)
  {
    hide TimersInv, TreeInv, PidsInv, PtrInv, NoLostWakeUp, StorageInv, PoolsInv, ResourcesInv, FdsInv, ChansInv;
    forall id | id in s.queues
      ensures |WithLabel(WaitsOnQueue(s), id)| == Blocked(s.queues[id])
    {
      WaitersOfQueue(s, id);
    }
    LabelsAddUp(WaitsOnQueue(s), s.queues, Blocked);
    assert WaitsOnQueue(s).Keys == QueueWaiters(s);
    assert |WaitsOnQueue(s)| == |WaitsOnQueue(s).Keys|;
  }
}
