/** The timer list is a stable sort of the timers in the order they were added. */
module TimerOrder {
  import opened KernelState
  import opened Syscalls
  import opened Invariants
  import opened Links

  /** The timers that expire at tick `w`, in list order. */
  function Class(ts: seq<Timer>, w: int): (c: seq<Timer>)
    ensures forall t :: t in c <==> t in ts && t.wake == w
  {
    if ts == [] then []
    else if ts[0].wake == w then [ts[0]] + Class(ts[1..], w)
    else Class(ts[1..], w)
  }

  /** The list left by adding `added` one after the other to an empty list. */
  function AddAll(added: seq<Timer>): seq<Timer> {
    if added == [] then [] else TimerInsert(AddAll(added[..|added| - 1]), added[|added| - 1])
  }

  lemma {:induction false} ClassAppend(a: seq<Timer>, b: seq<Timer>, w: int)
    ensures Class(a + b, w) == Class(a, w) + Class(b, w)
  {
    if a == [] {
      assert a + b == b;
    } else {
      assert (a + b)[1..] == a[1..] + b;
      ClassAppend(a[1..], b, w);
    }
  }

  lemma {:induction false} LaterClass(ts: seq<Timer>, w: int)
    requires forall t :: t in ts ==> w < t.wake
    ensures Class(ts, w) == []
  {
    if ts != [] { LaterClass(ts[1..], w); }
  }

  lemma InsertKeepsSorted(ts: seq<Timer>, t: Timer)
    requires Sorted(ts)
    ensures Sorted(TimerInsert(ts, t))
  {
    SortedAt(ts, TimerPos(ts, t.wake), t);
  }

  lemma MiddleClass(a: seq<Timer>, t: Timer, b: seq<Timer>, w: int)
    ensures Class(a + [t] + b, w) == Class(a, w) + Class([t], w) + Class(b, w)
  {
    ClassAppend(a + [t], b, w);
    ClassAppend(a, [t], w);
  }

  lemma LaterPart(ts: seq<Timer>, wake: int, w: int)
    requires Sorted(ts) && w <= wake
    ensures Class(ts[TimerPos(ts, wake)..], w) == []
  {
    var i := TimerPos(ts, wake);
    assert forall k :: i <= k < |ts| ==> wake < ts[k].wake;
    LaterClass(ts[i..], w);
  }

  /** A new timer goes behind every timer for the same tick and disturbs no other tick. */
  lemma InsertIsStable(ts: seq<Timer>, t: Timer, w: int)
    requires Sorted(ts)
    ensures Class(TimerInsert(ts, t), w) == if w == t.wake then Class(ts, w) + [t] else Class(ts, w)
  {
    hide Class, TimerPos, Sorted;
    var i := TimerPos(ts, t.wake);
    assert ts == ts[..i] + ts[i..];
    ClassAppend(ts[..i], ts[i..], w);
    MiddleClass(ts[..i], t, ts[i..], w);
    SingleClass(t, w);
    if w == t.wake { LaterPart(ts, t.wake, w); }
  }

  lemma SingleClass(t: Timer, w: int)
    ensures Class([t], w) == if w == t.wake then [t] else []
  {
  }

  lemma {:induction false} FirstOfEqual(a: seq<Timer>, b: seq<Timer>)
    requires Sorted(a) && Sorted(b) && a != []
    requires forall w :: Class(a, w) == Class(b, w)
    ensures b != [] && a[0] == b[0]
  {
    assert Class(a, a[0].wake)[0] == a[0];
    assert a[0] in Class(b, a[0].wake);
    assert b[0] in Class(b, b[0].wake);
    assert b[0] in Class(a, b[0].wake);
    assert b[0].wake == a[0].wake;
    assert Class(b, b[0].wake)[0] == b[0];
  }

  /** A sorted list is determined by what it holds for each tick, in order. */
  lemma {:induction false} ClassesDetermineList(a: seq<Timer>, b: seq<Timer>)
    requires Sorted(a) && Sorted(b)
    requires forall w :: Class(a, w) == Class(b, w)
    ensures a == b
    decreases |a|
  {
    if a == [] {
      assert b != [] ==> b[0] in Class(b, b[0].wake);
    } else {
      FirstOfEqual(a, b);
      forall w ensures Class(a[1..], w) == Class(b[1..], w) {
        assert Class(a, w) == Class(b, w);
        if a[0].wake == w {
          assert Class(a, w)[1..] == Class(a[1..], w);
          assert Class(b, w)[1..] == Class(b[1..], w);
        }
      }
      ClassesDetermineList(a[1..], b[1..]);
      assert a == [a[0]] + a[1..] && b == [b[0]] + b[1..];
    }
  }

  lemma {:induction false} AddAllIsStableSort(added: seq<Timer>, w: int)
    ensures Sorted(AddAll(added))
    ensures Class(AddAll(added), w) == Class(added, w)
  {
    if added != [] {
      var rest, t := added[..|added| - 1], added[|added| - 1];
      AddAllIsStableSort(rest, w);
      InsertIsStable(AddAll(rest), t, w);
      assert added == rest + [t];
      ClassAppend(rest, [t], w);
      SingleClass(t, w);
      InsertKeepsSorted(AddAll(rest), t);
    }
  }

  ghost predicate SameClasses(a: seq<Timer>, b: seq<Timer>) {
    forall w :: Class(a, w) == Class(b, w)
  }

  /** Adding timers one by one is the stable sort by wake time: it is the only sorted list
      that holds, for each tick, the timers of that tick in the order they were added. */
  lemma TimersAreStablySorted(added: seq<Timer>, ts: seq<Timer>)
    ensures Sorted(ts) && SameClasses(ts, added) <==> ts == AddAll(added)
  {
    assert Sorted(AddAll(added)) by { AddAllIsStableSort(added, 0); }
    forall w ensures Class(AddAll(added), w) == Class(added, w) {
      AddAllIsStableSort(added, w);
    }
    if Sorted(ts) && SameClasses(ts, added) {
      ClassesDetermineList(ts, AddAll(added));
    }
  }
}
