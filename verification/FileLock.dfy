/**
  The re-entrant file lock. Uses of the lock in one context are properly nested `with` blocks;
  the context keeps the leases it holds, the operating system keeps one lock per lease.
 */
module FileLock {
  import opened Wrappers

  datatype Mode = Shared | Exclusive

  /** `_FileLease`; a context may have inherited leases that have ended since. */
  datatype Lease = Lease(path: string, mode: Mode, active: bool)

  /** What happens to the operating system's locks, and when a protected body begins. */
  datatype Event =
    | Acquire(path: string, mode: Mode)
    | Enter(path: string, mode: Mode)
    | Release(path: string, mode: Mode)

  /**
    Code that uses the lock: nothing, raising, or a `with` block followed by more code. `fails`
    says that opening or locking the file raises, `caught` that the code around the block
    catches what it raises.
   */
  datatype Block =
    | Done
    | Raise
    | With(path: string, mode: Mode, fails: bool, body: Block, caught: bool, next: Block)

  datatype Ran = Ran(log: seq<Event>, ok: bool)

  /** The first active lease on the path. */
  function Held(leases: seq<Lease>, path: string): Option<Mode> {
    if leases == [] then None
    else if leases[0].active && leases[0].path == path then Some(leases[0].mode)
    else Held(leases[1..], path)
  }

  predicate Upgrade(held: Mode, wanted: Mode) { held == Shared && wanted == Exclusive }

  function Exec(b: Block, leases: seq<Lease>): Ran
    decreases b, 0
  {
    match b
    case Done => Ran([], true)
    case Raise => Ran([], false)
    case With(path, mode, fails, body, caught, next) =>
      var first := ExecWith(path, mode, fails, body, leases);
      if !first.ok && !caught then first
      else
        var second := Exec(next, leases);
        Ran(first.log + second.log, second.ok)
  }

  /** One `with` block. */
  function ExecWith(path: string, mode: Mode, fails: bool, body: Block, leases: seq<Lease>): Ran
    decreases body, 1
  {
    var held := Held(leases, path);
    if held.Some? then
      if Upgrade(held.value, mode) then Ran([], false)
      else
        var inner := Exec(body, leases);
        Ran([Enter(path, mode)] + inner.log, inner.ok)
    else if fails then Ran([], false)
    else
      var inner := Exec(body, leases + [Lease(path, mode, true)]);
      Ran([Acquire(path, mode), Enter(path, mode)] + inner.log + [Release(path, mode)], inner.ok)
  }

  // ----- The operating system's side

  /** The locks held on behalf of a context. */
  function Locks(leases: seq<Lease>): map<string, Mode> {
    if leases == [] then map[]
    else
      var last := leases[|leases| - 1];
      var before := Locks(leases[..|leases| - 1]);
      if last.active then before[last.path := last.mode] else before
  }

  /** An exclusive lock covers every use of its path, a shared one only shared uses. */
  predicate Covers(held: Mode, wanted: Mode) {
    match (held, wanted)
    case (Exclusive, Exclusive) => true
    case (Exclusive, Shared) => true
    case (Shared, Shared) => true
    case (Shared, Exclusive) => false
  }

  /**
    One event, if it is in order: no path is locked twice, a body begins only under a lock at
    least as strong as it asked for, and what is released was held.
   */
  function Apply(locks: map<string, Mode>, e: Event): Option<map<string, Mode>> {
    match e
    case Acquire(path, mode) => if path in locks then None else Some(locks[path := mode])
    case Enter(path, mode) => if path in locks && Covers(locks[path], mode) then Some(locks) else None
    case Release(path, mode) => if path in locks && locks[path] == mode then Some(locks - {path}) else None
  }

  function Replay(locks: map<string, Mode>, log: seq<Event>): Option<map<string, Mode>>
    decreases |log|
  {
    if log == [] then Some(locks)
    else
      var next := Apply(locks, log[0]);
      if next.None? then None else Replay(next.value, log[1..])
  }

  lemma {:induction false} ReplayAppend(locks: map<string, Mode>, a: seq<Event>, b: seq<Event>)
    ensures Replay(locks, a + b) == if Replay(locks, a).None? then None else Replay(Replay(locks, a).value, b)
    decreases |a|
  {
    if a == [] {
      assert a + b == b;
    } else {
      assert (a + b)[0] == a[0] && (a + b)[1..] == a[1..] + b;
      var next := Apply(locks, a[0]);
      if next.Some? {
        ReplayAppend(next.value, a[1..], b);
      }
    }
  }

  /** Active leases are on different paths. */
  predicate Disjoint(leases: seq<Lease>) {
    forall i, j :: 0 <= i < j < |leases| && leases[i].active && leases[j].active ==> leases[i].path != leases[j].path
  }

  lemma {:induction false} HeldAbsent(leases: seq<Lease>, path: string)
    ensures Held(leases, path).None? <==> forall i :: 0 <= i < |leases| && leases[i].active ==> leases[i].path != path
    ensures Held(leases, path).Some? ==>
              exists i :: 0 <= i < |leases| && leases[i].active && leases[i].path == path && leases[i].mode == Held(leases, path).value
  {
    if leases != [] {
      HeldAbsent(leases[1..], path);
      assert forall i :: 1 <= i < |leases| ==> leases[i] == leases[1..][i - 1];
      if Held(leases, path).Some? && !(leases[0].active && leases[0].path == path) {
        var i :| 0 <= i < |leases[1..]| && leases[1..][i].active && leases[1..][i].path == path
          && leases[1..][i].mode == Held(leases[1..], path).value;
        assert leases[i + 1].active && leases[i + 1].path == path && leases[i + 1].mode == Held(leases, path).value;
      }
    }
  }

  lemma {:induction false} LocksHold(leases: seq<Lease>, path: string)
    requires Disjoint(leases)
    ensures path in Locks(leases) <==> exists i :: 0 <= i < |leases| && leases[i].active && leases[i].path == path
    ensures forall i :: 0 <= i < |leases| && leases[i].active && leases[i].path == path ==>
              path in Locks(leases) && Locks(leases)[path] == leases[i].mode
  {
    if leases != [] {
      var n := |leases| - 1;
      var before := leases[..n];
      LocksHold(before, path);
      assert forall i :: 0 <= i < n ==> before[i] == leases[i];
    }
  }

  /** The context's search finds exactly the lock the operating system holds. */
  lemma HeldIsLocked(leases: seq<Lease>, path: string)
    requires Disjoint(leases)
    ensures Held(leases, path) == if path in Locks(leases) then Some(Locks(leases)[path]) else None
  {
    HeldAbsent(leases, path);
    LocksHold(leases, path);
  }

  lemma LocksExtended(leases: seq<Lease>, path: string, mode: Mode)
    requires Disjoint(leases) && Held(leases, path).None?
    ensures Disjoint(leases + [Lease(path, mode, true)])
    ensures Locks(leases + [Lease(path, mode, true)]) == Locks(leases)[path := mode] && path !in Locks(leases)
  {
    HeldAbsent(leases, path);
    HeldIsLocked(leases, path);
    assert (leases + [Lease(path, mode, true)])[..|leases|] == leases;
  }

  /**
    However the code nests its uses and wherever it raises: no path is ever locked a second
    time, every body runs under a lock that covers it, every lock taken is released exactly
    once at its outermost exit, and in the end the system holds what it held before.
   */
  lemma {:induction false} LocksBalance(b: Block, leases: seq<Lease>)
    requires Disjoint(leases)
    ensures Replay(Locks(leases), Exec(b, leases).log) == Some(Locks(leases))
    decreases b, 0
  {
    match b
    case Done =>
    case Raise =>
    case With(path, mode, fails, body, caught, next) =>
      WithBalances(path, mode, fails, body, leases);
      LocksBalance(next, leases);
      ReplayAppend(Locks(leases), ExecWith(path, mode, fails, body, leases).log, Exec(next, leases).log);
  }

  lemma {:induction false} WithBalances(path: string, mode: Mode, fails: bool, body: Block, leases: seq<Lease>)
    requires Disjoint(leases)
    ensures Replay(Locks(leases), ExecWith(path, mode, fails, body, leases).log) == Some(Locks(leases))
    decreases body, 1
  {
    var locks := Locks(leases);
    HeldIsLocked(leases, path);
    if Held(leases, path).Some? {
      LocksBalance(body, leases);
      var log := [Enter(path, mode)] + Exec(body, leases).log;
      assert log[0] == Enter(path, mode) && log[1..] == Exec(body, leases).log;
    } else if !fails {
      LocksExtended(leases, path, mode);
      var inner := leases + [Lease(path, mode, true)];
      LocksBalance(body, inner);
      Bracketed(locks, path, mode, Exec(body, inner).log);
    }
  }

  lemma Bracketed(locks: map<string, Mode>, path: string, mode: Mode, inner: seq<Event>)
    requires path !in locks && Replay(locks[path := mode], inner) == Some(locks[path := mode])
    ensures Replay(locks, [Acquire(path, mode), Enter(path, mode)] + inner + [Release(path, mode)]) == Some(locks)
  {
    var log := [Acquire(path, mode), Enter(path, mode)] + inner + [Release(path, mode)];
    var tail := inner + [Release(path, mode)];
    assert log[0] == Acquire(path, mode) && log[1..][0] == Enter(path, mode) && log[1..][1..] == tail;
    ReplayAppend(locks[path := mode], inner, [Release(path, mode)]);
    assert locks[path := mode] - {path} == locks;
    assert [Release(path, mode)][1..] == [];
  }

  /** A shared holder asking for more is refused, and nothing changes. */
  lemma UpgradeRefused(path: string, fails: bool, body: Block, leases: seq<Lease>)
    requires Disjoint(leases)
    ensures path in Locks(leases) && Locks(leases)[path] == Shared ==>
              ExecWith(path, Exclusive, fails, body, leases) == Ran([], false)
  {
    HeldIsLocked(leases, path);
  }

  /**
    With a lock already held on the path, a block runs its body if and only if that lock is
    exclusive or a shared one is asked for. It then asks nothing of the operating system, and it
    does what its body does and ends as its body ends.
   */
  lemma ReentryExactly(path: string, mode: Mode, fails: bool, body: Block, leases: seq<Lease>)
    requires Disjoint(leases) && path in Locks(leases)
    ensures ExecWith(path, mode, fails, body, leases) ==
            if Locks(leases)[path] == Exclusive || mode == Shared
            then Ran([Enter(path, mode)] + Exec(body, leases).log, Exec(body, leases).ok)
            else Ran([], false)
  {
    HeldIsLocked(leases, path);
  }

  /**
    With none held, it runs its body exactly if the lock can be had: under that lock, which is
    released after it however it ends.
   */
  lemma FirstUseExactly(path: string, mode: Mode, fails: bool, body: Block, leases: seq<Lease>)
    requires Disjoint(leases) && path !in Locks(leases)
    ensures
      var inner := leases + [Lease(path, mode, true)];
      && Disjoint(inner) && Locks(inner) == Locks(leases)[path := mode]
      && ExecWith(path, mode, fails, body, leases) ==
         if fails then Ran([], false)
         else Ran([Acquire(path, mode), Enter(path, mode)] + Exec(body, inner).log + [Release(path, mode)], Exec(body, inner).ok)
  {
    HeldIsLocked(leases, path);
    LocksExtended(leases, path, mode);
  }

  /** What comes after a block runs exactly if the block ended well or what it raised was caught. */
  lemma AfterBlock(path: string, mode: Mode, fails: bool, body: Block, caught: bool, next: Block, leases: seq<Lease>)
    ensures
      var first := ExecWith(path, mode, fails, body, leases);
      Exec(With(path, mode, fails, body, caught, next), leases) ==
      if first.ok || caught then Ran(first.log + Exec(next, leases).log, Exec(next, leases).ok) else Ran(first.log, false)
    ensures Exec(Done, leases) == Ran([], true) && Exec(Raise, leases) == Ran([], false)
  {
  }

  /** The shared lock of a transaction inside the exclusive one of an operation, and the other way round. */
  lemma NestedModes(path: string)
    ensures Exec(With(path, Exclusive, false, With(path, Shared, false, Done, false, Done), false, Done), [])
         == Ran([Acquire(path, Exclusive), Enter(path, Exclusive), Enter(path, Shared), Release(path, Exclusive)], true)
    ensures Exec(With(path, Shared, false, With(path, Exclusive, false, Done, false, Done), false, Done), [])
         == Ran([Acquire(path, Shared), Enter(path, Shared), Release(path, Shared)], false)
  {
    var inner := With(path, Shared, false, Done, false, Done);
    var held := [Lease(path, Exclusive, true)];
    assert [] + held == held && held[0] == Lease(path, Exclusive, true);
    assert Exec(inner, held) == Ran([Enter(path, Shared)] + [] + [], true);
    var raised := With(path, Exclusive, false, Done, false, Done);
    var shared := [Lease(path, Shared, true)];
    assert [] + shared == shared && Exec(raised, shared) == Ran([], false);
  }

  // ----- The context itself

  /** The context variable, with what was asked of the operating system so far. */
  class Context {
    var leases: seq<Lease>
    var log: seq<Event>

    method Find(path: string) returns (found: Option<Mode>)
      ensures found == Held(leases, path)
    {
      var i := 0;
      while i < |leases|
        invariant i <= |leases| && Held(leases[i..], path) == Held(leases, path)
      {
        assert leases[i..][1..] == leases[i + 1..];
        if leases[i].active && leases[i].path == path {
          return Some(leases[i].mode);
        }
        i := i + 1;
      }
      return None;
    }

    /** Runs code; the lease tuple is back to what it was at every exit. */
    method Run(b: Block) returns (ok: bool)
      modifies this
      ensures leases == old(leases)
      ensures log == old(log) + Exec(b, old(leases)).log && ok == Exec(b, old(leases)).ok
      decreases b, 0
    {
      match b
      case Done =>
        return true;
      case Raise =>
        return false;
      case With(path, mode, fails, body, caught, next) =>
        ok := Use(path, mode, fails, body);
        if ok || caught {
          ok := Run(next);
        }
    }

    /** `file_lock` around a body. */
    method Use(path: string, mode: Mode, fails: bool, body: Block) returns (ok: bool)
      modifies this
      ensures leases == old(leases)
      ensures log == old(log) + ExecWith(path, mode, fails, body, old(leases)).log
      ensures ok == ExecWith(path, mode, fails, body, old(leases)).ok
      decreases body, 1
    {
      var held := leases;
      var found := Find(path);
      if found.Some? {
        if Upgrade(found.value, mode) {
          return false;
        }
        log := log + [Enter(path, mode)];
        ok := Run(body);
      } else if fails {
        ok := false;
      } else {
        log := log + [Acquire(path, mode), Enter(path, mode)];
        leases := held + [Lease(path, mode, true)];
        ok := Run(body);
        leases := held;
        log := log + [Release(path, mode)];
      }
    }
  }
}
