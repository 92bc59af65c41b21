/** Facts about sequences used as the contents of the kernel's lists. */
module Seqs {
  ghost predicate NoDup<T>(xs: seq<T>) {
    forall i, j :: 0 <= i < j < |xs| ==> xs[i] != xs[j]
  }

  /** The list left after detaching the item at position `i`. */
  function RemoveAt<T>(xs: seq<T>, i: nat): seq<T>
    requires i < |xs|
  {
    xs[..i] + xs[i + 1..]
  }

  /** The list left after detaching item `x`; the list itself when `x` is not in it. */
  function Remove<T(==)>(xs: seq<T>, x: T): (r: seq<T>)
    ensures x !in xs ==> r == xs
    ensures forall y :: y in r ==> y in xs
    ensures forall y :: y in xs && y != x ==> y in r
  {
    if xs == [] then []
    else if xs[0] == x then xs[1..]
    else [xs[0]] + Remove(xs[1..], x)
  }

  lemma {:induction false} RemoveNoDup<T>(xs: seq<T>, x: T)
    requires NoDup(xs)
    ensures NoDup(Remove(xs, x))
    ensures x !in Remove(xs, x)
    ensures x in xs ==> |Remove(xs, x)| == |xs| - 1
  {
    if xs != [] && xs[0] != x {
      assert NoDup(xs[1..]);
      RemoveNoDup(xs[1..], x);
      assert xs[0] !in xs[1..];
    }
  }

  lemma {:induction false} RemoveIsRemoveAt<T>(xs: seq<T>, i: nat)
    requires NoDup(xs)
    requires i < |xs|
    ensures Remove(xs, xs[i]) == RemoveAt(xs, i)
  {
    if i == 0 {
      assert RemoveAt(xs, 0) == xs[1..];
    } else {
      var rest := xs[1..];
      assert NoDup(rest) && rest[i - 1] == xs[i] && xs[0] != xs[i];
      RemoveIsRemoveAt(rest, i - 1);
      assert [xs[0]] + RemoveAt(rest, i - 1) == RemoveAt(xs, i);
    }
  }

  /** A sequence without repetitions has as many elements as the set of its elements. */
  lemma {:induction false} NoDupCard<T>(xs: seq<T>)
    requires NoDup(xs)
    ensures |set x | x in xs| == |xs|
  {
    if xs == [] {
    } else {
      var rest := xs[1..];
      NoDupCard(rest);
      assert (set x | x in xs) == {xs[0]} + set x | x in rest;
      assert xs[0] !in rest;
    }
  }

  lemma SubsetCard<T>(a: set<T>, b: set<T>)
    requires a <= b
    ensures |a| <= |b|
  {
    assert b == a + (b - a);
  }

  /** Sets in bijection have the same size: `f` is given by a map. */
  lemma {:induction false} BijectionCard<A, B>(f: map<A, B>, image: set<B>)
    requires forall a, a' :: a in f && a' in f && f[a] == f[a'] ==> a == a'
    requires forall a :: a in f ==> f[a] in image
    requires forall b :: b in image ==> exists a :: a in f && f[a] == b
    ensures |f| == |image|
    decreases |f|
  {
    if f == map[] {
      assert image == {};
    } else {
      var a :| a in f;
      var g := f - {a};
      assert f.Keys == g.Keys + {a};
      assert |f.Keys| == |g.Keys| + 1;
      forall b | b in image - {f[a]}
        ensures exists a' :: a' in g && g[a'] == b
      {
        var a' :| a' in f && f[a'] == b;
        assert a' in g;
      }
      BijectionCard(g, image - {f[a]});
    }
  }
}
