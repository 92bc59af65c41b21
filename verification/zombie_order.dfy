/** Zombies are reaped in the order in which they exited, by those who would take either. */
module ZombieOrder {
  import opened Wrappers
  import opened Seqs
  import opened KernelState
  import opened Syscalls
  import opened Invariants
  import opened Bystanders
  import opened Steps
  import opened Faults
  import opened Outcomes
  import opened QueueCalls
  import opened QueueLife
  import opened ProcessCalls
  import opened WaitOutcome

  /** The zombie at position `i`, the first that the caller asked for, has left the list. */
  ghost predicate Leaves(s: State, s': State, i: nat, pid: int)
    requires s.running.Some?
  {
    FirstAwaited(s, s.zombie, i, s.running.value, pid) && s'.zombie == s.zombie[..i] + s.zombie[i + 1..]
  }

  /** An exit adds to the end, a wait may take out the first one it asked for. */
  ghost predicate ZombiesMove(s: State, op: Op, s': State) {
    || s'.zombie == s.zombie
    || (s.running.Some? && op.Exit? && s'.zombie == s.zombie + [s.running.value])
    || (s.running.Some? && op.Wait? && exists i: nat :: Leaves(s, s', i, op.pid))
  }

  lemma PutKeepsZombies(s: State, id: int, v: int)
    requires Inv(s) && s.running.Some? && Safe(s, Put(id, v))
    ensures Step(s, Put(id, v)).zombie == s.zombie
  {
    hide Inv, Step, Safe, RecordsPut, Blocks, Completes, Stores, TakesBack, HandsOut;
    PutExactly(s, id, v);
  }

  lemma GetKeepsZombies(s: State, id: int, out: int)
    requires Inv(s) && s.running.Some? && Safe(s, Get(id, out))
    ensures Step(s, Get(id, out)).zombie == s.zombie
  {
    hide Inv, Step, Safe, RecordsGet, Blocks, Completes, Stores, TakesBack, HandsOut;
    GetExactly(s, id, out);
  }

  lemma QueueCallKeepsZombies(s: State, op: Op)
    requires Inv(s) && s.running.Some? && Safe(s, op) && QueueCall(op)
    ensures Step(s, op).zombie == s.zombie
  {
    hide Inv, Step, Safe, HandsOut, GivesBack;
    match op
    case Put(id, v) => PutKeepsZombies(s, id, v);
    case Get(id, out) => GetKeepsZombies(s, id, out);
    case Create(id, cap) => CreateExactly(s, id, cap);
    case Delete(id) => QueueLife.DeleteExactly(s, id);
  }

  lemma ResourceCallKeepsZombies(s: State, op: Op)
    requires s.running.Some? && Safe(s, op) && (op.Open? || op.Close? || op.Destroy?)
    ensures Step(s, op).zombie == s.zombie
  {
    hide DoOpen, DoClose, DoDestroy;
    StepCall(s, op);
    match op
    case Open(_, _, _) => OpenBystander(Trap(s, op));
    case Close(_) => CloseBystander(Trap(s, op));
    case Destroy(_) => DestroyBystander(Trap(s, op));
  }

  lemma WaitMovesZombies(s: State, pid: int, out: int)
    requires Inv(s) && s.running.Some? && Safe(s, Wait(pid, out))
    ensures ZombiesMove(s, Wait(pid, out), Step(s, Wait(pid, out)))
  {
    hide Inv, Step, Safe, FirstAwaited, Stores, TakesBack, LosesChild, Blocks, HasAwaitedZombie;
    DeliversExactly(s, pid, out);
    if HasAwaitedZombie(s, s.running.value, pid) {
      var s' := Step(s, Wait(pid, out));
      var i: nat :| FirstAwaited(s, s.zombie, i, s.running.value, pid) && ReapsAt(s, s', i, pid, out);
      assert Leaves(s, s', i, pid);
    }
  }

  lemma TickKeepsZombies(s: State)
    requires Inv(s)
    ensures Step(s, Tick).zombie == s.zombie
  {
    hide Inv, Step;
    TickExactly(s);
  }

  lemma ProcessCallMovesZombies(s: State, op: Op)
    requires Inv(s) && s.running.Some? && Safe(s, op)
    requires op.Preempt? || op.Fork? || op.Spawn? || op.Sleep? || op.Exit?
    ensures ZombiesMove(s, op, Step(s, op))
  {
    hide Inv, Step, Safe, HandsOut, SetsTimer, Blocks;
    match op
    case Preempt => PreemptExactly(s);
    case Fork => SpawnExactly(s, op);
    case Spawn(_, _) => SpawnExactly(s, op);
    case Sleep(n) => SleepExactly(s, n);
    case Exit(v) => ExitExactly(s, v);
  }

  lemma StepMovesZombies(s: State, op: Op)
    requires Inv(s) && Safe(s, op)
    ensures ZombiesMove(s, op, Step(s, op))
  {
    hide Inv, Step, HandlerSafe;
    if op.Tick? {
      TickKeepsZombies(s);
    } else if QueueCall(op) {
      QueueCallKeepsZombies(s, op);
    } else if op.Open? || op.Close? || op.Destroy? {
      ResourceCallKeepsZombies(s, op);
    } else if op.Wait? {
      WaitMovesZombies(s, op.pid, op.result);
    } else {
      ProcessCallMovesZombies(s, op);
    }
  }

  // ---------- the order ----------

  /** `a` became a zombie before `b` did. */
  ghost predicate Before(zs: seq<Ref>, a: Ref, b: Ref) {
    exists i, j :: 0 <= i < j < |zs| && zs[i] == a && zs[j] == b
  }

  lemma LeavingKeepsOrder(zs: seq<Ref>, k: nat, a: Ref, b: Ref)
    requires NoDup(zs) && k < |zs| && Before(zs, a, b)
    ensures a in zs[..k] + zs[k + 1..] && b in zs[..k] + zs[k + 1..] ==> Before(zs[..k] + zs[k + 1..], a, b)
  {
    var zs' := zs[..k] + zs[k + 1..];
    var i, j :| 0 <= i < j < |zs| && zs[i] == a && zs[j] == b;
    if a in zs' && b in zs' {
      assert i != k && j != k;
      assert zs'[if i < k then i else i - 1] == a && zs'[if j < k then j else j - 1] == b;
    }
  }

  lemma JoiningKeepsOrder(zs: seq<Ref>, z: Ref, a: Ref, b: Ref)
    requires Before(zs, a, b)
    ensures Before(zs + [z], a, b)
  {
    var i, j :| 0 <= i < j < |zs| && zs[i] == a && zs[j] == b;
    assert (zs + [z])[i] == a && (zs + [z])[j] == b;
  }

  lemma OrderIsKept(s: State, op: Op, s': State, a: Ref, b: Ref)
    requires NoDup(s.zombie) && ZombiesMove(s, op, s') && Before(s.zombie, a, b)
    ensures a in s'.zombie && b in s'.zombie ==> Before(s'.zombie, a, b)
    ensures b !in s'.zombie ==> s.running.Some? && op.Wait? && !Awaited(s, a, s.running.value, op.pid)
  {
    hide NoDup, Awaited;
    if s'.zombie != s.zombie {
      if op.Exit? {
        JoiningKeepsOrder(s.zombie, s.running.value, a, b);
      } else {
        var k: nat :| Leaves(s, s', k, op.pid);
        LeavingKeepsOrder(s.zombie, k, a, b);
        LeaverIsFirst(s.zombie, k, a, b);
      }
    }
  }

  lemma LeaverIsFirst(zs: seq<Ref>, k: nat, a: Ref, b: Ref)
    requires NoDup(zs) && k < |zs| && Before(zs, a, b)
    ensures b !in zs[..k] + zs[k + 1..] ==> exists i :: 0 <= i < k && zs[i] == a
  {
    var zs' := zs[..k] + zs[k + 1..];
    var i, j :| 0 <= i < j < |zs| && zs[i] == a && zs[j] == b;
    if j != k { assert zs'[if j < k then j else j - 1] == b; }
  }

  /** As long as both are zombies, no wait that asks for a process like `a` reaps `b` before it. */
  ghost predicate NotOvertaken(s: State, ops: seq<Op>, a: Ref, b: Ref)
    requires RunSafe(s, ops)
    decreases |ops|
  {
    a in s.zombie && b in s.zombie && ops != [] ==>
      var s' := Step(s, ops[0]);
      && (b !in s'.zombie ==> s.running.Some? && ops[0].Wait? && !Awaited(s, a, s.running.value, ops[0].pid))
      && NotOvertaken(s', ops[1..], a, b)
  }

  lemma ZombiesDiffer(s: State)
    requires Inv(s)
    ensures NoDup(s.zombie)
  {
  }

  lemma {:induction false} OrderOverRun(s: State, ops: seq<Op>, a: Ref, b: Ref)
    requires Inv(s) && RunSafe(s, ops)
    requires a in s.zombie && b in s.zombie ==> Before(s.zombie, a, b)
    ensures NotOvertaken(s, ops, a, b)
    decreases |ops|
  {
    hide Inv, Step, Safe, ZombiesMove, Before, Awaited;
    if a in s.zombie && b in s.zombie && ops != [] {
      var s' := Step(s, ops[0]);
      ZombiesDiffer(s);
      StepMovesZombies(s, ops[0]);
      OrderIsKept(s, ops[0], s', a, b);
      StepKeeps(s, ops[0]);
      OrderOverRun(s', ops[1..], a, b);
    }
  }

  /** Of two zombies the one that exited first is reaped first by whoever asks for both. */
  lemma FirstToExitIsFirstReaped(s: State, v: int, a: Ref, ops: seq<Op>)
    requires Inv(s) && s.running.Some? && Safe(s, Exit(v)) && a in s.zombie && RunSafe(Step(s, Exit(v)), ops)
    ensures NotOvertaken(Step(s, Exit(v)), ops, a, s.running.value)
  {
    hide Inv, Step, Safe, RunSafe, NotOvertaken, Left;
    StepKeeps(s, Exit(v));
    ExitExactly(s, v);
    LastIsBehind(s.zombie, a, s.running.value);
    OrderOverRun(Step(s, Exit(v)), ops, a, s.running.value);
  }

  lemma LastIsBehind(zs: seq<Ref>, a: Ref, b: Ref)
    requires a in zs
    ensures Before(zs + [b], a, b)
  {
    var i :| 0 <= i < |zs| && zs[i] == a;
    assert (zs + [b])[i] == a && (zs + [b])[|zs|] == b;
  }
}
