/** The intrusive doubly linked list, as the sequence of its items. */
module LinkedLists {
  import opened Seqs

  class ListItem {
    var prev: ListItem?
    var next: ListItem?

    constructor ()
      ensures prev == null && next == null
    {
      prev, next := null, null;
    }
  }

  /** Where a list changes when something is inserted behind `prev`, or at the front. */
  ghost function Position(items: seq<ListItem>, prev: ListItem?): (p: nat)
    requires prev != null ==> prev in items
    ensures p <= |items| && (prev == null ==> p == 0)
    ensures prev != null ==> 0 < p && items[p - 1] == prev
  {
    if prev == null then 0
    else if items[0] == prev then 1
    else 1 + Position(items[1..], prev)
  }

  ghost function Before(items: seq<ListItem>, i: nat): ListItem?
    requires i < |items|
  {
    if i == 0 then null else items[i - 1]
  }

  ghost function After(items: seq<ListItem>, i: nat): ListItem?
    requires i < |items|
  {
    if i + 1 == |items| then null else items[i + 1]
  }

  lemma OnlyAt(items: seq<ListItem>, p: nat)
    requires NoDup(items) && p < |items|
    ensures forall i :: 0 <= i < |items| && items[i] == items[p] ==> i == p
  {
  }

  lemma NeighboursAt(items: seq<ListItem>, p: nat)
    requires NoDup(items) && p < |items|
    ensures forall i :: 0 <= i < |items| && items[i] == items[p] ==> i == p
    ensures forall i :: 0 <= i < |items| && items[i] == Before(items, p) ==> i + 1 == p
    ensures forall i :: 0 <= i < |items| && items[i] == After(items, p) ==> i == p + 1
  {
    hide NoDup;
    OnlyAt(items, p);
    if p > 0 { OnlyAt(items, p - 1); }
    if p + 1 < |items| { OnlyAt(items, p + 1); }
  }

  lemma NoDupInsert(items: seq<ListItem>, p: nat, item: ListItem)
    requires NoDup(items) && p <= |items| && item !in items
    ensures NoDup(items[..p] + [item] + items[p..])
  {
    assert forall i :: 0 <= i < |items| ==> items[i] in items;
  }

  lemma EndsAfterRemove(items: seq<ListItem>, p: nat)
    requires p < |items|
    ensures var rest := RemoveAt(items, p);
      && |rest| == |items| - 1
      && (rest != [] ==> rest[0] == if p == 0 then items[1] else items[0])
      && (rest != [] ==> rest[|rest| - 1] == if p + 1 == |items| then items[p - 1] else items[|items| - 1])
  {
  }

  /** The items point at each other in the order of the sequence. */
  ghost predicate Linked(items: seq<ListItem>)
    reads items
  {
    && (forall i {:trigger items[i].prev} :: 0 <= i < |items| ==> items[i].prev == Before(items, i))
    && (forall i {:trigger items[i].next} :: 0 <= i < |items| ==> items[i].next == After(items, i))
  }

  lemma SplicedIn(items: seq<ListItem>, p: nat, item: ListItem)
    requires p <= |items|
    requires forall i {:trigger items[i].prev} :: 0 <= i < |items| ==>
      items[i].prev == if i == p then item else Before(items, i)
    requires forall i {:trigger items[i].next} :: 0 <= i < |items| ==>
      items[i].next == if i + 1 == p then item else After(items, i)
    requires item.prev == (if p == 0 then null else items[p - 1])
    requires item.next == (if p == |items| then null else items[p])
    ensures Linked(items[..p] + [item] + items[p..])
  {
    var items' := items[..p] + [item] + items[p..];
    forall i | 0 <= i < |items'|
      ensures items'[i].prev == Before(items', i) && items'[i].next == After(items', i)
    {
      assert i < p ==> items'[i] == items[i];
      assert i > p ==> items'[i] == items[i - 1];
    }
  }

  lemma SplicedOut(items: seq<ListItem>, p: nat)
    requires p < |items|
    requires forall i {:trigger items[i].prev} :: 0 <= i < |items| && i != p ==>
      items[i].prev == if i == p + 1 then Before(items, p) else Before(items, i)
    requires forall i {:trigger items[i].next} :: 0 <= i < |items| && i != p ==>
      items[i].next == if i + 1 == p then After(items, p) else After(items, i)
    ensures Linked(RemoveAt(items, p))
  {
    var items' := RemoveAt(items, p);
    forall i | 0 <= i < |items'|
      ensures items'[i].prev == Before(items', i) && items'[i].next == After(items', i)
    {
      assert i < p ==> items'[i] == items[i];
      assert i >= p ==> items'[i] == items[i + 1];
    }
  }

  lemma AtTheEnd(items: seq<ListItem>)
    requires NoDup(items) && items != []
    ensures Position(items, items[|items| - 1]) == |items|
  {
    var p := Position(items, items[|items| - 1]);
    assert items[p - 1] == items[|items| - 1];
  }

  lemma RemoveLater<T>(x: T, xs: seq<T>, item: T)
    requires x != item
    ensures Remove([x] + xs, item) == [x] + Remove(xs, item)
  {
    assert ([x] + xs)[1..] == xs;
  }

  /** Taking an item out undoes putting it in, wherever it was put. */
  lemma {:induction false} DetachUndoesInsert<T>(items: seq<T>, p: nat, item: T)
    requires p <= |items| && item !in items
    ensures Remove(items[..p] + [item] + items[p..], item) == items
  {
    var items' := items[..p] + [item] + items[p..];
    if p == 0 {
      assert items'[1..] == items;
    } else {
      var rest := items[1..];
      var rest' := rest[..p - 1] + [item] + rest[p - 1..];
      assert items == [items[0]] + rest && item !in rest;
      assert items' == [items[0]] + rest';
      RemoveLater(items[0], rest', item);
      DetachUndoesInsert(rest, p - 1, item);
    }
  }

  class ListHead {
    var first: ListItem?
    var last: ListItem?
    var size: int
    ghost var items: seq<ListItem>

    /** The items are linked in both directions in the order of `items`. */
    ghost predicate Valid()
      reads this, items
    {
      && NoDup(items) && size == |items|
      && first == (if items == [] then null else items[0])
      && last == (if items == [] then null else items[|items| - 1])
      && Linked(items)
    }

    constructor ()
      ensures Valid() && items == []
    {
      first, last, size, items := null, null, 0, [];
    }

    method Find(item: ListItem) returns (r: ListItem?)
      requires Valid()
      ensures r == if item in items then item else null
    {
      var aux := first;
      ghost var i := 0;
      while aux != null
        invariant 0 <= i <= |items|
        invariant aux == if i == |items| then null else items[i]
        invariant item !in items[..i]
        decreases |items| - i
      {
        if aux == item { return item; }
        assert aux.next == After(items, i);
        aux := aux.next;
        i := i + 1;
      }
      return null;
    }

    lemma NotLinked(item: ListItem)
      requires Valid() && item.prev == null && item.next == null
      ensures item in items ==> items == [item]
    {
      forall i | 0 <= i < |items| && items[i] == item ensures |items| == 1 {
        assert items[i].prev == Before(items, i) && items[i].next == After(items, i);
      }
    }

    lemma InsertAt(prev: ListItem?, item: ListItem) returns (p: nat)
      requires Valid() && (prev != null ==> prev in items)
      requires item.prev == null && item.next == null
      ensures p == Position(items, prev) && p <= |items|
      ensures item in items ==> items == [item]
      ensures (if prev != null then prev.next else first) == if p == |items| then null else items[p]
      ensures prev == if p == 0 then null else items[p - 1]
      ensures forall i :: 0 <= i < |items| && items[i] == prev ==> i + 1 == p
      ensures p < |items| ==> forall i :: 0 <= i < |items| && items[i] == items[p] ==> i == p
      ensures item !in items ==> NoDup(items[..p] + [item] + items[p..])
    {
      hide NoDup;
      p := Position(items, prev);
      NotLinked(item);
      assert prev != null ==> items[p - 1].next == After(items, p - 1);
      if p > 0 { OnlyAt(items, p - 1); }
      if p < |items| { OnlyAt(items, p); }
      if item !in items { NoDupInsert(items, p, item); }
    }

    /** Inserts `item` behind `prev`, or at the front; an item that is linked to others is
        refused. The only item of this very list is not linked to others: inserting it once
        more links it to itself. */
    method Insert(prev: ListItem?, item: ListItem) returns (r: ListItem?)
      requires Valid() && (prev != null ==> prev in items)
      modifies this, items, item
      ensures r == if old(item.prev == null && item.next == null) then item else null
      ensures r == null ==> items == old(items) && unchanged(this, items, item)
      ensures r == null || item !in old(items) ==> Valid()
      ensures r != null && item !in old(items) ==>
        var p := Position(old(items), prev); items == old(items[..p] + [item] + items[p..])
      ensures r != null && item in old(items) ==>
        old(items) == [item] && (item.next == item || item.prev == item) && size == 2
    {
      if item.next != null || item.prev != null { return null; }
      hide NoDup, Position;
      ghost var p := InsertAt(prev, item);
      var next := if prev != null then prev.next else first;
      assert item !in items ==> forall i :: 0 <= i < |items| ==> items[i] != item;
      if prev != null {
        item.prev := prev;
        prev.next := item;
      }
      if next != null {
        item.next := next;
        next.prev := item;
      }
      if prev == null { first := item; }
      if next == null { last := item; }
      size := size + 1;
      if item !in items {
        SplicedIn(items, p, item);
        items := items[..p] + [item] + items[p..];
      }
      return item;
    }

    /** Inserts behind the last item. */
    method PushBack(item: ListItem) returns (r: ListItem?)
      requires Valid()
      modifies this, items, item
      ensures r == if old(item.prev == null && item.next == null) then item else null
      ensures r == null ==> items == old(items) && unchanged(this, items, item)
      ensures r == null || item !in old(items) ==> Valid()
      ensures r != null && item !in old(items) ==> items == old(items) + [item]
      ensures r != null && item in old(items) ==>
        old(items) == [item] && (item.next == item || item.prev == item) && size == 2
    {
      hide NoDup, Position;
      if items != [] { AtTheEnd(items); }
      r := Insert(last, item);
    }

    lemma DetachAt(item: ListItem) returns (i: nat)
      requires Valid() && item in items
      ensures i < |items| && items[i] == item
      ensures item.prev == Before(items, i) && item.next == After(items, i)
      ensures forall k :: 0 <= k < |items| && items[k] == item ==> k == i
      ensures forall k :: 0 <= k < |items| && items[k] == item.prev ==> k + 1 == i
      ensures forall k :: 0 <= k < |items| && items[k] == item.next ==> k == i + 1
      ensures RemoveAt(items, i) == Remove(items, item) && NoDup(RemoveAt(items, i))
      ensures item == last <==> i + 1 == |items|
    {
      i :| 0 <= i < |items| && items[i] == item;
      hide NoDup, Remove, RemoveAt;
      RemoveIsRemoveAt(items, i);
      RemoveNoDup(items, item);
      NeighboursAt(items, i);
    }

    /** Takes an item of this list out, leaving the others in their order. */
    method Detach(item: ListItem) returns (r: ListItem)
      requires Valid() && item in items
      modifies this, items
      ensures Valid() && r == item && item.prev == null && item.next == null
      ensures items == Remove(old(items), item)
    {
      hide NoDup, Remove, RemoveAt;
      ghost var i := DetachAt(item);
      EndsAfterRemove(items, i);
      var prev, next := item.prev, item.next;
      if prev != null { prev.next := next; }
      if next != null { next.prev := prev; }
      if item == first { first := next; }
      if item == last { last := prev; }
      size := size - 1;
      item.next, item.prev := null, null;
      SplicedOut(items, i);
      items := RemoveAt(items, i);
      return item;
    }
  }

  // ---------- items that move between lists ----------

  /** A list whose head and items are as they were is as valid as it was. */
  twostate lemma Untouched(l: ListHead)
    requires old(l.Valid()) && unchanged(l)
    requires forall x :: x in l.items ==> unchanged(x)
    ensures l.Valid()
  {
    forall i | 0 <= i < |l.items|
      ensures l.items[i].prev == Before(l.items, i) && l.items[i].next == After(l.items, i)
    {
      assert l.items[i] in l.items;
      assert old(l.items[i].prev) == Before(l.items, i) && old(l.items[i].next) == After(l.items, i);
    }
  }

  /** The three lists that run through the one link of every process. */
  class ProcessLists {
    const ready: ListHead
    const waiting: ListHead
    const zombie: ListHead
    ghost var pcbs: set<ListItem>

    ghost predicate Unlisted(p: ListItem)
      reads ready, waiting, zombie
    {
      p !in ready.items && p !in waiting.items && p !in zombie.items
    }

    /** The lists share no process, and a process in none of them is not linked. */
    ghost predicate Valid()
      reads this, ready, waiting, zombie, pcbs, ready.items, waiting.items, zombie.items
    {
      && ready != waiting && ready != zombie && waiting != zombie
      && ready.Valid() && waiting.Valid() && zombie.Valid()
      && (forall x :: x in ready.items ==> x in pcbs && x !in waiting.items && x !in zombie.items)
      && (forall x :: x in waiting.items ==> x in pcbs && x !in zombie.items)
      && (forall x :: x in zombie.items ==> x in pcbs)
      && (forall x :: x in pcbs && Unlisted(x) ==> x.prev == null && x.next == null)
    }

    constructor ()
      ensures Valid() && pcbs == {} && fresh(ready) && fresh(waiting) && fresh(zombie)
      ensures ready.items == [] && waiting.items == [] && zombie.items == []
    {
      ready := new ListHead();
      waiting := new ListHead();
      zombie := new ListHead();
      pcbs := {};
    }

    /** A block handed out for a new process starts unlinked. */
    method Allocate(item: ListItem)
      requires Valid() && Unlisted(item)
      modifies this`pcbs, item
      ensures Valid() && Unlisted(item) && pcbs == old(pcbs) + {item}
      ensures ready.items == old(ready.items) && waiting.items == old(waiting.items)
      ensures zombie.items == old(zombie.items)
    {
      hide NoDup, Linked;
      item.prev, item.next := null, null;
      pcbs := pcbs + {item};
      Untouched(ready);
      Untouched(waiting);
      Untouched(zombie);
    }

    /** A process that is in none of the lists is never refused. */
    method Append(to: ListHead, item: ListItem)
      requires Valid() && to in {ready, waiting, zombie} && item in pcbs && Unlisted(item)
      modifies to, to.items, item
      ensures Valid() && to.items == old(to.items) + [item]
      ensures forall l :: l in {ready, waiting, zombie} && l != to ==> l.items == old(l.items)
    {
      hide NoDup, Linked;
      var r := to.PushBack(item);
      assert r == item;
      if to != ready { Untouched(ready); }
      if to != waiting { Untouched(waiting); }
      if to != zombie { Untouched(zombie); }
    }

    /** A process taken out of a list is in none. */
    method TakeOut(from: ListHead, item: ListItem)
      requires Valid() && from in {ready, waiting, zombie} && item in from.items
      modifies from, from.items
      ensures Valid() && Unlisted(item) && from.items == Remove(old(from.items), item)
      ensures forall l :: l in {ready, waiting, zombie} && l != from ==> l.items == old(l.items)
    {
      hide NoDup, Linked;
      RemoveNoDup(from.items, item);
      var r := from.Detach(item);
      if from != ready { Untouched(ready); }
      if from != waiting { Untouched(waiting); }
      if from != zombie { Untouched(zombie); }
    }
  }
}
