/** The list of queues, searched by id, as the map it stands for. */
module Registries {
  import opened Seqs
  import opened KernelState

  ghost predicate UniqueIds(reg: seq<Queue>) {
    forall i, j :: 0 <= i < j < |reg| ==> reg[i].id != reg[j].id
  }

  /** What a search by id finds: the first queue with that id. */
  function Registered(reg: seq<Queue>): map<int, Queue> {
    if reg == [] then map[] else Registered(reg[1..])[reg[0].id := reg[0]]
  }

  lemma {:induction false} RegisteredIds(reg: seq<Queue>)
    ensures forall id :: id in Registered(reg) <==> exists i :: 0 <= i < |reg| && reg[i].id == id
  {
    if reg != [] {
      RegisteredIds(reg[1..]);
      assert forall i :: 1 <= i < |reg| ==> reg[i] == reg[1..][i - 1];
    }
  }

  lemma {:induction false} RegisteredAt(reg: seq<Queue>, i: nat)
    requires UniqueIds(reg) && i < |reg|
    ensures reg[i].id in Registered(reg) && Registered(reg)[reg[i].id] == reg[i]
  {
    if i > 0 { RegisteredAt(reg[1..], i - 1); }
  }

  /** Updating a queue in place, which never changes its id. */
  lemma {:induction false} RegisteredUpdate(reg: seq<Queue>, i: nat, q: Queue)
    requires UniqueIds(reg) && i < |reg| && q.id == reg[i].id
    ensures UniqueIds(reg[i := q])
    ensures Registered(reg[i := q]) == Registered(reg)[q.id := q]
  {
    var rest := reg[1..];
    if i == 0 {
      assert reg[0 := q][1..] == rest;
    } else {
      assert UniqueIds(rest) && rest[i - 1] == reg[i];
      RegisteredUpdate(rest, i - 1, q);
      assert reg[i := q][1..] == rest[i - 1 := q];
    }
  }

  lemma UniqueAppend(reg: seq<Queue>, q: Queue)
    requires UniqueIds(reg) && q.id !in Registered(reg)
    ensures UniqueIds(reg + [q])
  {
    RegisteredIds(reg);
    assert forall i :: 0 <= i < |reg| ==> reg[i].id != q.id;
  }

  lemma {:induction false} RegisteredAppend(reg: seq<Queue>, q: Queue)
    requires q.id !in Registered(reg)
    ensures Registered(reg + [q]) == Registered(reg)[q.id := q]
  {
    if reg == [] {
      assert [q][1..] == [];
    } else {
      assert (reg + [q])[1..] == reg[1..] + [q];
      RegisteredAppend(reg[1..], q);
    }
  }

  lemma UniqueRemove(reg: seq<Queue>, i: nat)
    requires UniqueIds(reg) && i < |reg|
    ensures UniqueIds(RemoveAt(reg, i))
  {
  }

  lemma {:induction false} RegisteredRemove(reg: seq<Queue>, i: nat)
    requires UniqueIds(reg) && i < |reg|
    ensures Registered(RemoveAt(reg, i)) == Registered(reg) - {reg[i].id}
  {
    var rest := reg[1..];
    if i == 0 {
      assert RemoveAt(reg, 0) == rest;
      RegisteredIds(rest);
      assert forall j :: 0 <= j < |rest| ==> rest[j] == reg[j + 1];
      assert reg[0].id !in Registered(rest);
    } else {
      assert UniqueIds(rest) && rest[i - 1] == reg[i];
      RegisteredRemove(rest, i - 1);
      assert RemoveAt(reg, i)[1..] == RemoveAt(rest, i - 1);
    }
  }
}
