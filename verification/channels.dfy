/** Every queue behaves as a plain unbounded FIFO channel. */
module Channels {
  import opened Wrappers
  import opened Seqs
  import opened KernelState
  import opened Syscalls
  import opened Invariants
  import opened Frames
  import opened Waking
  import opened Buffers
  import opened Blocking

  /** The process that made request `q` has been answered: its call came back with 0. */
  ghost predicate Answered(s: State, q: Request) {
    exists r: Ref :: Live(s, r) && s.pcb[r].pid == q.pid && s.pcb[r].retval == 0 && r !in s.waiting
  }

  /** A step in which the channel went from `c` to `c'` wrote to user memory just what the
      channel delivered: the n-th value put, to the place named by the n-th request. */
  ghost predicate Delivers(s: State, s': State, c: Chan, c': Chan) {
    var n := c.Served();
    if c'.Served() == n then s'.mem == s.mem
    else
      && c'.Served() == n + 1
      && Stores(s.mem, s'.mem, c'.gets[n].out, c'.puts[n])
      && Answered(s', c'.gets[n])
  }

  function WithPut(c: Chan, v: int): Chan { c.(puts := c.puts + [v]) }

  function WithGet(c: Chan, q: Request): Chan { c.(gets := c.gets + [q]) }

  /** The effect of a call on queue `id`, as far as values and requests are concerned. */
  ghost predicate Effect(s: State, s': State, id: int, q: Queue, mem: map<int, int>) {
    && s'.queues == s.queues[id := q] && s'.mem == mem && s'.pcbPool == s.pcbPool
    && forall r: Ref :: SameRequest(s.pcb[r], s'.pcb[r])
  }

  lemma Conclude(s: State, s': State, id: int, q: Queue, c: Chan, mem: map<int, int>)
    requires ChansInv(s) && id in s.queues && Effect(s, s', id, q, mem)
    requires Matches(s.pcb, q, c)
    ensures ChansInv(s'.(chans := s.chans[id := c]))
  {
    var s2 := s'.(chans := s.chans[id := c]);
    forall i | i in s2.queues
      ensures Matches(s2.pcb, s2.queues[i], s2.chans[i])
    {
      if i == id {
        FrameMatches(s.pcb, s'.pcb, q, c);
      } else {
        FrameMatches(s.pcb, s'.pcb, s.queues[i], s.chans[i]);
      }
    }
  }

  // ---------- what each event does to a queue that matches its channel ----------

  lemma HandOffMatches(t: PcbTable, q: Queue, c: Chan, v: int)
    requires Matches(t, q, c) && QueueOk(q) && q.getters != []
    ensures Matches(t, q.(getters := q.getters[1..]), WithPut(c, v))
    ensures c.Served() == |c.puts| && WithPut(c, v).Served() == c.Served() + 1
    ensures var l := q.getters[0].pcb; c.gets[c.Served()] == Request(t[l].pid, t[l].arg1)
  {
    var n := c.Served();
    var rs := Requests(t, q.getters);
    assert rs[0] == c.gets[n..][0];
    assert Requests(t, q.getters[1..]) == rs[1..] == c.gets[n + 1..];
    assert WithPut(c, v).puts[n + 1..] == [];
  }

  lemma EnqueueMatches(t: PcbTable, q: Queue, c: Chan, it: Item)
    requires Matches(t, q, c) && q.getters == [] && q.putters == []
    ensures Matches(t, q.(items := q.items + [it], size := q.size + 1), WithPut(c, it.value))
    ensures WithPut(c, it.value).Served() == c.Served()
  {
    var n := c.Served();
    assert c.gets[n..] == [] && n == |c.gets|;
    assert ItemValues(q.items + [it]) == ItemValues(q.items) + [it.value];
    assert PutValues(t, q.putters) == [];
    assert WithPut(c, it.value).puts[n..] == c.puts[n..] + [it.value];
  }

  lemma JoinPutMatches(t: PcbTable, q: Queue, c: Chan, l: Link)
    requires Matches(t, q, c) && q.getters == []
    ensures Matches(t, q.(putters := q.putters + [l]), WithPut(c, t[l.pcb].arg1))
    ensures WithPut(c, t[l.pcb].arg1).Served() == c.Served()
  {
    var n := c.Served();
    assert c.gets[n..] == [] && n == |c.gets|;
    assert PutValues(t, q.putters + [l]) == PutValues(t, q.putters) + [t[l.pcb].arg1];
    assert WithPut(c, t[l.pcb].arg1).puts[n..] == c.puts[n..] + [t[l.pcb].arg1];
  }

  lemma JoinGetMatches(t: PcbTable, q: Queue, c: Chan, l: Link)
    requires Matches(t, q, c) && q.items == [] && q.putters == []
    ensures Matches(t, q.(getters := q.getters + [l]), WithGet(c, Request(t[l.pcb].pid, t[l.pcb].arg1)))
    ensures WithGet(c, Request(t[l.pcb].pid, t[l.pcb].arg1)).Served() == c.Served()
  {
    var n := c.Served();
    var r := Request(t[l.pcb].pid, t[l.pcb].arg1);
    assert c.puts[n..] == [] && n == |c.puts|;
    assert Requests(t, q.getters + [l]) == Requests(t, q.getters) + [r];
    assert WithGet(c, r).gets[n..] == c.gets[n..] + [r];
  }

  lemma DequeueMatches(t: PcbTable, q: Queue, c: Chan, r: Request)
    requires Matches(t, q, c) && q.items != [] && q.getters == []
    ensures Matches(t, q.(items := q.items[1..], size := q.size - 1), WithGet(c, r))
    ensures c.Served() == |c.gets| && WithGet(c, r).Served() == c.Served() + 1
    ensures c.puts[c.Served()] == q.items[0].value
  {
    var n := c.Served();
    assert c.gets[n..] == [] && n == |c.gets|;
    assert ItemValues(q.items)[0] == c.puts[n..][0];
    assert ItemValues(q.items[1..]) == ItemValues(q.items)[1..];
    assert c.puts[n..][1..] == c.puts[n + 1..];
  }

  /** Moving the value of the first blocked putter into the buffer changes nothing. */
  lemma RefillMatches(t: PcbTable, q: Queue, c: Chan, b: nat)
    requires Matches(t, q, c) && q.putters != []
    ensures Matches(t, q.(items := q.items + [Item(b, t[q.putters[0].pcb].arg1)], putters := q.putters[1..]), c)
  {
    var v := t[q.putters[0].pcb].arg1;
    assert PutValues(t, q.putters) == [v] + PutValues(t, q.putters[1..]);
    assert ItemValues(q.items + [Item(b, v)]) == ItemValues(q.items) + [v];
  }

  // ---------- put ----------

  function PutResult(s: State, s': State, id: int, v: int): State
    requires id in s.chans
  {
    s'.(chans := s.chans[id := WithPut(s.chans[id], v)])
  }

  function GetResult(s: State, s': State, id: int): State
    requires s.running.Some? && id in s.chans
  {
    var p := s.pcb[s.running.value];
    s'.(chans := s.chans[id := WithGet(s.chans[id], Request(p.pid, p.arg1))])
  }

  lemma HandToGetterEffect(s: State, id: int, v: int)
    requires ListsInv(s) && WaitersInv(s) && s.running.Some? && id in s.queues && s.queues[id].getters != []
    ensures var s' := Return(HandToGetter(s, id, v), 0);
      var q := s.queues[id];
      var l := q.getters[0].pcb;
      && Effect(s, s', id, q.(getters := q.getters[1..]), Write(s.mem, s.pcb[l].arg1, v))
      && Answered(s', Request(s.pcb[l].pid, s.pcb[l].arg1))
  {
    var s' := Return(HandToGetter(s, id, v), 0);
    var l := s.queues[id].getters[0].pcb;
    HeadWaiterBlocked(s, id, true);
    RemoveNoDup(s.waiting, l);
    assert Live(s', l) && s'.pcb[l].pid == s.pcb[l].pid && s'.pcb[l].retval == 0 && l !in s'.waiting;
  }

  lemma PutToGetter(s: State, id: int, v: int)
    requires ListsInv(s) && WaitersInv(s) && QueuesInv(s) && ChansInv(s)
    requires s.running.Some? && id in s.queues && s.queues[id].getters != []
    ensures var s' := PutResult(s, Return(HandToGetter(s, id, v), 0), id, v);
      ChansInv(s') && Delivers(s, s', s.chans[id], s'.chans[id])
  {
    var q := s.queues[id];
    var l := q.getters[0].pcb;
    HandToGetterEffect(s, id, v);
    HandOffMatches(s.pcb, q, s.chans[id], v);
    Conclude(s, Return(HandToGetter(s, id, v), 0), id, q.(getters := q.getters[1..]),
             WithPut(s.chans[id], v), Write(s.mem, s.pcb[l].arg1, v));
  }

  lemma AddItemEffect(s: State, id: int, v: int)
    requires s.running.Some? && id in s.queues && s.itemPool.free != []
    ensures var q := s.queues[id];
      Effect(s, Return(AddItem(s, id, v), 0), id,
             q.(items := q.items + [Item(s.itemPool.free[0], v)], size := q.size + 1), s.mem)
  {
  }

  lemma PutToBuffer(s: State, id: int, v: int)
    requires QueuesInv(s) && ChansInv(s) && s.running.Some? && id in s.queues && s.itemPool.free != []
    requires s.queues[id].getters == [] && s.queues[id].size < s.queues[id].capacity
    ensures var s' := PutResult(s, Return(AddItem(s, id, v), 0), id, v);
      ChansInv(s') && Delivers(s, s', s.chans[id], s'.chans[id])
  {
    var q := s.queues[id];
    var it := Item(s.itemPool.free[0], v);
    AddItemEffect(s, id, v);
    EnqueueMatches(s.pcb, q, s.chans[id], it);
    Conclude(s, Return(AddItem(s, id, v), 0), id, q.(items := q.items + [it], size := q.size + 1),
             WithPut(s.chans[id], v), s.mem);
  }

  lemma JoinedEffect(s: State, id: int, get: bool)
    requires s.running.Some? && id in s.queues && s.ptrPool.free != []
    ensures var q := s.queues[id];
      var l := Link(s.ptrPool.free[0], s.running.value);
      Effect(s, PickNext(Joined(s, id, get), true), id,
             if get then q.(getters := q.getters + [l]) else q.(putters := q.putters + [l]), s.mem)
  {
  }

  lemma PutBlocked(s: State, id: int)
    requires ChansInv(s) && s.running.Some? && id in s.queues && s.ptrPool.free != []
    requires s.queues[id].getters == []
    ensures var s' := PutResult(s, PickNext(Joined(s, id, false), true), id, s.pcb[s.running.value].arg1);
      ChansInv(s') && Delivers(s, s', s.chans[id], s'.chans[id])
  {
    var q := s.queues[id];
    var l := Link(s.ptrPool.free[0], s.running.value);
    JoinedEffect(s, id, false);
    JoinPutMatches(s.pcb, q, s.chans[id], l);
    Conclude(s, PickNext(Joined(s, id, false), true), id, q.(putters := q.putters + [l]),
             WithPut(s.chans[id], s.pcb[s.running.value].arg1), s.mem);
  }

  // ---------- get ----------

  lemma TakeItemEffect(s: State, id: int, out: int)
    requires ListsInv(s) && s.running.Some? && id in s.queues && s.queues[id].items != []
    ensures var s' := Return(TakeItem(s, id, out), 0);
      var q := s.queues[id];
      && Effect(s, s', id, q.(items := q.items[1..], size := q.size - 1), Write(s.mem, out, q.items[0].value))
      && Answered(s', Request(s.pcb[s.running.value].pid, out))
  {
    var r := s.running.value;
    var s' := Return(TakeItem(s, id, out), 0);
    assert Live(s', r) && s'.pcb[r].pid == s.pcb[r].pid && s'.pcb[r].retval == 0 && r !in s'.waiting;
  }

  lemma GetFromBuffer(s: State, id: int)
    requires ListsInv(s) && QueuesInv(s) && ChansInv(s) && s.running.Some? && id in s.queues
    requires s.queues[id].items != [] && s.queues[id].putters == []
    ensures var s' := GetResult(s, Return(TakeItem(s, id, s.pcb[s.running.value].arg1), 0), id);
      ChansInv(s') && Delivers(s, s', s.chans[id], s'.chans[id])
  {
    var p := s.pcb[s.running.value];
    var q := s.queues[id];
    TakeItemEffect(s, id, p.arg1);
    DequeueMatches(s.pcb, q, s.chans[id], Request(p.pid, p.arg1));
    Conclude(s, Return(TakeItem(s, id, p.arg1), 0), id, q.(items := q.items[1..], size := q.size - 1),
             WithGet(s.chans[id], Request(p.pid, p.arg1)), Write(s.mem, p.arg1, q.items[0].value));
  }

  function RefilledQueue(s: State, id: int): Queue
    requires id in s.queues && s.queues[id].items != [] && s.queues[id].putters != []
  {
    var q := s.queues[id];
    q.(items := q.items[1..] + [Item(q.items[0].block, s.pcb[q.putters[0].pcb].arg1)], putters := q.putters[1..])
  }

  lemma RefillEffect(s: State, id: int, out: int)
    requires ListsInv(s) && StorageInv(s) && s.running.Some?
    requires id in s.queues && s.queues[id].items != [] && s.queues[id].putters != []
    ensures var s' := Return(Refilled(s, id, out), 0);
      && Effect(s, s', id, RefilledQueue(s, id), Write(s.mem, out, s.queues[id].items[0].value))
      && Answered(s', Request(s.pcb[s.running.value].pid, out))
  {
    var r := s.running.value;
    RefillReuses(s, id, out);
    var s' := Return(Refilled(s, id, out), 0);
    assert Live(s', r) && s'.pcb[r].pid == s.pcb[r].pid && s'.pcb[r].retval == 0 && r !in s'.waiting;
  }

  lemma GetAndRefill(s: State, id: int)
    requires ListsInv(s) && QueuesInv(s) && StorageInv(s) && ChansInv(s) && s.running.Some? && id in s.queues
    requires s.queues[id].items != [] && s.queues[id].putters != []
    ensures var s' := GetResult(s, Return(Refilled(s, id, s.pcb[s.running.value].arg1), 0), id);
      ChansInv(s') && Delivers(s, s', s.chans[id], s'.chans[id])
  {
    var p := s.pcb[s.running.value];
    var q := s.queues[id];
    var q1 := q.(items := q.items[1..], size := q.size - 1);
    var c' := WithGet(s.chans[id], Request(p.pid, p.arg1));
    RefillEffect(s, id, p.arg1);
    DequeueMatches(s.pcb, q, s.chans[id], Request(p.pid, p.arg1));
    RefillMatches(s.pcb, q1, c', q.items[0].block);
    assert Matches(s.pcb, RefilledQueue(s, id), c');
    Conclude(s, Return(Refilled(s, id, p.arg1), 0), id, RefilledQueue(s, id), c',
             Write(s.mem, p.arg1, q.items[0].value));
  }

  lemma GetBlocked(s: State, id: int)
    requires ChansInv(s) && s.running.Some? && id in s.queues && s.ptrPool.free != []
    requires s.queues[id].items == [] && s.queues[id].putters == []
    ensures var s' := GetResult(s, PickNext(Joined(s, id, true), true), id);
      ChansInv(s') && Delivers(s, s', s.chans[id], s'.chans[id])
  {
    var p := s.pcb[s.running.value];
    var q := s.queues[id];
    var l := Link(s.ptrPool.free[0], s.running.value);
    JoinedEffect(s, id, true);
    JoinGetMatches(s.pcb, q, s.chans[id], l);
    Conclude(s, PickNext(Joined(s, id, true), true), id, q.(getters := q.getters + [l]),
             WithGet(s.chans[id], Request(p.pid, p.arg1)), s.mem);
  }
}
