/** Facts about the lists of links to processes and about the timer list. */
module Links {
  import opened Seqs
  import opened KernelState
  import opened Syscalls
  import opened Invariants

  lemma LinkJoins(ls: seq<Link>, l: Link)
    requires UniqueRefs(ls) && !HasRef(ls, l.pcb)
    ensures UniqueRefs(ls + [l])
    ensures forall r: Ref :: HasRef(ls + [l], r) <==> HasRef(ls, r) || r == l.pcb
  {
    var ls' := ls + [l];
    assert ls'[|ls|] == l;
    forall r: Ref | HasRef(ls, r)
      ensures HasRef(ls', r)
    {
      var i :| 0 <= i < |ls| && ls[i].pcb == r;
      assert ls'[i].pcb == r;
    }
    forall r: Ref | HasRef(ls', r) && r != l.pcb
      ensures HasRef(ls, r)
    {
      var i :| 0 <= i < |ls'| && ls'[i].pcb == r;
      assert ls[i].pcb == r;
    }
  }

  lemma LinkLeavesUnique(ls: seq<Link>, i: nat)
    requires UniqueRefs(ls) && i < |ls|
    ensures UniqueRefs(RemoveAt(ls, i))
  {
  }

  lemma LinkLeaves(ls: seq<Link>, i: nat)
    requires UniqueRefs(ls) && i < |ls|
    ensures UniqueRefs(RemoveAt(ls, i))
    ensures forall r: Ref :: HasRef(RemoveAt(ls, i), r) <==> HasRef(ls, r) && r != ls[i].pcb
    ensures forall l :: l in RemoveAt(ls, i) <==> l in ls && l != ls[i]
  {
    LinkLeavesUnique(ls, i);
    var ls' := RemoveAt(ls, i);
    assert forall k :: 0 <= k < |ls'| ==> ls'[k] == ls[if k < i then k else k + 1];
    forall k | 0 <= k < |ls| && k != i
      ensures ls[k] in ls'
    {
      assert ls[k] == ls'[if k < i then k else k - 1];
    }
    forall r: Ref | HasRef(ls, r) && r != ls[i].pcb
      ensures HasRef(ls', r)
    {
      var k :| 0 <= k < |ls| && ls[k].pcb == r;
      assert ls'[if k < i then k else k - 1].pcb == r;
    }
    forall r: Ref | HasRef(ls', r)
      ensures HasRef(ls, r) && r != ls[i].pcb
    {
      var k :| 0 <= k < |ls'| && ls'[k].pcb == r;
      assert ls[if k < i then k else k + 1].pcb == r;
    }
  }

  lemma HeadLinkLeaves(ls: seq<Link>)
    requires UniqueRefs(ls) && ls != []
    ensures ls[0] in ls && HasRef(ls, ls[0].pcb)
    ensures UniqueRefs(ls[1..])
    ensures forall r: Ref :: HasRef(ls[1..], r) <==> HasRef(ls, r) && r != ls[0].pcb
    ensures forall l :: l in ls[1..] <==> l in ls && l != ls[0]
  {
    LinkLeaves(ls, 0);
    assert RemoveAt(ls, 0) == ls[1..];
  }

  lemma LinkHasRef(ls: seq<Link>, l: Link)
    requires l in ls
    ensures HasRef(ls, l.pcb)
  {
    var i :| 0 <= i < |ls| && ls[i] == l;
  }

  /** A new timer is placed behind every timer that expires no later than it does. */
  lemma TimerJoinsInOrder(ts: seq<Timer>, t: Timer)
    requires Sorted(ts) && UniqueSleepers(ts) && !HasTimer(ts, t.pcb)
    ensures Sorted(TimerInsert(ts, t)) && UniqueSleepers(TimerInsert(ts, t))
  {
    var i := TimerPos(ts, t.wake);
    SortedAt(ts, i, t);
    UniqueAt(ts, i, t);
  }

  lemma SortedAt(ts: seq<Timer>, i: nat, t: Timer)
    requires Sorted(ts) && i <= |ts|
    requires forall k :: 0 <= k < i ==> ts[k].wake <= t.wake
    requires i < |ts| ==> t.wake < ts[i].wake
    ensures Sorted(ts[..i] + [t] + ts[i..])
  {
    assert forall k :: i <= k < |ts| ==> t.wake < ts[k].wake;
  }

  lemma UniqueAt(ts: seq<Timer>, i: nat, t: Timer)
    requires UniqueSleepers(ts) && !HasTimer(ts, t.pcb) && i <= |ts|
    ensures UniqueSleepers(ts[..i] + [t] + ts[i..])
  {
    assert forall k :: 0 <= k < |ts| ==> ts[k].pcb != t.pcb;
  }

  lemma TimerJoins(ts: seq<Timer>, t: Timer)
    ensures forall x :: x in TimerInsert(ts, t) <==> x in ts || x == t
    ensures forall r: Ref :: HasTimer(TimerInsert(ts, t), r) <==> HasTimer(ts, r) || r == t.pcb
    ensures forall b, r: Ref :: OwnedByTimer(ts, b, r) ==> OwnedByTimer(TimerInsert(ts, t), b, r)
    ensures OwnedByTimer(TimerInsert(ts, t), t.block, t.pcb)
  {
    hide TimerPos;
    TimerJoinsAt(ts, TimerPos(ts, t.wake), t);
    OwnerJoinsAt(ts, TimerPos(ts, t.wake), t);
  }

  lemma TimerJoinsAt(ts: seq<Timer>, i: nat, t: Timer)
    requires i <= |ts|
    ensures var ts' := ts[..i] + [t] + ts[i..];
      && (forall x :: x in ts' <==> x in ts || x == t)
      && (forall r: Ref :: HasTimer(ts', r) <==> HasTimer(ts, r) || r == t.pcb)
  {
    var ts' := ts[..i] + [t] + ts[i..];
    assert ts'[i] == t;
    forall k | 0 <= k < |ts|
      ensures ts[k] in ts' && HasTimer(ts', ts[k].pcb)
    {
      assert ts'[if k < i then k else k + 1] == ts[k];
    }
    forall k | 0 <= k < |ts'| && k != i
      ensures HasTimer(ts, ts'[k].pcb)
    {
      assert ts'[k] == ts[if k < i then k else k - 1];
    }
  }

  lemma OwnerJoinsAt(ts: seq<Timer>, i: nat, t: Timer)
    requires i <= |ts|
    ensures var ts' := ts[..i] + [t] + ts[i..];
      && (forall b, r: Ref :: OwnedByTimer(ts, b, r) ==> OwnedByTimer(ts', b, r))
      && OwnedByTimer(ts', t.block, t.pcb)
  {
    var ts' := ts[..i] + [t] + ts[i..];
    assert ts'[i] == t;
    forall b, r: Ref | OwnedByTimer(ts, b, r)
      ensures OwnedByTimer(ts', b, r)
    {
      var k :| 0 <= k < |ts| && ts[k].block == b && ts[k].pcb == r;
      assert ts'[if k < i then k else k + 1] == ts[k];
    }
  }

  lemma HeadTimerLeaves(ts: seq<Timer>)
    requires Sorted(ts) && UniqueSleepers(ts) && ts != []
    ensures Sorted(ts[1..]) && UniqueSleepers(ts[1..])
    ensures forall x :: x in ts[1..] <==> x in ts && x != ts[0]
    ensures forall x :: x in ts[1..] ==> x.pcb != ts[0].pcb
    ensures forall r: Ref :: HasTimer(ts[1..], r) <==> HasTimer(ts, r) && r != ts[0].pcb
    ensures forall b, r: Ref :: OwnedByTimer(ts, b, r) && b != ts[0].block ==> OwnedByTimer(ts[1..], b, r)
  {
    var ts' := ts[1..];
    assert forall k :: 0 <= k < |ts'| ==> ts'[k] == ts[k + 1];
    assert ts == [ts[0]] + ts';
    forall r: Ref | HasTimer(ts, r) && r != ts[0].pcb
      ensures HasTimer(ts', r)
    {
      var k :| 0 <= k < |ts| && ts[k].pcb == r;
      assert ts'[k - 1].pcb == r;
    }
    forall r: Ref | HasTimer(ts', r)
      ensures HasTimer(ts, r) && r != ts[0].pcb
    {
      var k :| 0 <= k < |ts'| && ts'[k].pcb == r;
      assert ts[k + 1].pcb == r;
    }
    forall b, r: Ref | OwnedByTimer(ts, b, r) && b != ts[0].block
      ensures OwnedByTimer(ts', b, r)
    {
      var k :| 0 <= k < |ts| && ts[k].block == b && ts[k].pcb == r;
      assert ts'[k - 1].block == b;
    }
  }
}
