/** The words in which the outcome of a call is described, field by field, from the states
    before and after it. */
module Outcomes {
  import opened Wrappers
  import opened Seqs
  import opened Pools
  import opened KernelState

  /** `xs'` is `xs` without one occurrence of `x`, and otherwise in the same order. */
  ghost predicate Without<T>(xs: seq<T>, xs': seq<T>, x: T) {
    exists i :: 0 <= i < |xs| && xs[i] == x && xs' == xs[..i] + xs[i + 1..]
  }

  lemma WithoutLater<T>(xs: seq<T>, rest: seq<T>, rest': seq<T>, x: T)
    requires xs != [] && rest == xs[1..] && Without(rest, rest', x)
    ensures Without(xs, [xs[0]] + rest', x)
  {
    var i :| 0 <= i < |rest| && rest[i] == x && rest' == rest[..i] + rest[i + 1..];
    var k := i + 1;
    assert xs[k] == x;
    assert xs[..k] == [xs[0]] + rest[..i];
    assert xs[k + 1..] == rest[i + 1..];
    assert [xs[0]] + rest' == xs[..k] + xs[k + 1..];
  }

  lemma {:induction false} RemoveIsWithout<T>(xs: seq<T>, x: T)
    requires x in xs
    ensures Without(xs, Remove(xs, x), x)
  {
    if xs[0] == x {
      assert xs[..0] + xs[1..] == xs[1..];
    } else {
      hide Without;
      RemoveIsWithout(xs[1..], x);
      WithoutLater(xs, xs[1..], Remove(xs[1..], x), x);
    }
  }

  /** Block `b`, which was free, is now in use, as `note` says, and no other block is affected. */
  ghost predicate HandsOut<B, T>(p: Pool<B, T>, p': Pool<B, T>, b: B, note: T) {
    && b !in p.live && p'.live == p.live[b := note]
    && p.free == [b] + p'.free
  }

  /** Block `b`, which was in use, is now free, the next to be handed out. */
  ghost predicate TakesBack<B, T>(p: Pool<B, T>, p': Pool<B, T>, b: B) {
    && b in p.live && p'.live == p.live - {b}
    && p'.free == [b] + p.free
  }

  lemma TakeHandsOut<B, T>(p: Pool<B, T>, note: T, capacity: nat)
    requires p.Wf(capacity) && p.free != []
    ensures HandsOut(p, p.Take(note), p.free[0], note)
  {
    assert p.free[0] in p.free;
  }

  /** What is left when the pool is not empty. */
  lemma RoomExactly<B, T>(p: Pool<B, T>, capacity: nat)
    requires p.Wf(capacity)
    ensures p.free != [] <==> |p.live| < capacity
  {
  }

  /** A process that has called system call `number` with these first two arguments. */
  function Called(p: Pcb, number: int, a: int, b: int): Pcb {
    p.(syscallNum := number, arg0 := a, arg1 := b)
  }

  /** The same for a call of one argument. */
  function Called1(p: Pcb, number: int, a: int): Pcb {
    p.(syscallNum := number, arg0 := a)
  }

  /** The call comes back with `v`. Nothing changes but the caller, which is `p` otherwise. */
  ghost predicate OnlyReturns(s: State, s': State, p: Pcb, v: int)
    requires s.running.Some?
  {
    s' == s.(pcb := s.pcb[s.running.value := p.(retval := v)])
  }

  /** The head of `ready` gets the processor, and `t` are the processes otherwise; `mark` tells
      whether its status becomes Running. With nobody ready the processor is idle. */
  ghost predicate Dispatched(s': State, t: PcbTable, ready: seq<Ref>, mark: bool) {
    if ready == [] then s'.running == None && s'.ready == [] && s'.pcb == t
    else
      && s'.running == Some(ready[0]) && s'.ready == ready[1..]
      && s'.pcb == if mark then t[ready[0] := t[ready[0]].(status := Running)] else t
  }

  /** The caller, otherwise `p`, waits behind those who wait, with no result for its call. */
  ghost predicate Blocks(s: State, s': State, p: Pcb, mark: bool)
    requires s.running.Some?
  {
    && s'.waiting == s.waiting + [s.running.value]
    && Dispatched(s', s.pcb[s.running.value := p.(status := Waiting)], s.ready, mark)
  }

  /** The blocked call of `w` ends with 0, and `w` is ready, behind those who are; the caller,
      otherwise `p`, keeps the processor, its call ends with 0 too. */
  ghost predicate Completes(s: State, s': State, p: Pcb, w: Ref)
    requires s.running.Some?
  {
    && s'.ready == s.ready + [w] && Without(s.waiting, s'.waiting, w)
    && s'.pcb == s.pcb[s.running.value := p.(retval := 0)][w := s.pcb[w].(status := Ready, retval := 0)]
  }
}
