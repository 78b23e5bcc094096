/**
  What every step of the coordinator keeps. `Safe` covers ownership, the lease
  forest and the exclusive region; `Durable` adds what the journal guarantees.
 */
module RuntimeInvariant {
  import opened Wrappers
  import opened RuntimeTypes
  import opened RuntimeProtocol

  // ----- The lease forest

  /** `l` is `r` or was opened in a context inherited, directly or not, from `r`. */
  predicate Descends(leases: seq<Lease>, l: nat, r: nat)
    decreases l
  {
    l == r ||
    (l < |leases| && leases[l].parent.Some? && leases[l].parent.value < l && Descends(leases, leases[l].parent.value, r))
  }

  /** How many live leases `_active` has to count. */
  function LiveCount(leases: seq<Lease>): nat {
    if leases == [] then 0
    else LiveCount(leases[..|leases| - 1])
         + (if leases[|leases| - 1].active && !leases[|leases| - 1].kind.Root? then 1 else 0)
  }

  predicate Forest(leases: seq<Lease>) {
    forall l :: 0 <= l < |leases| ==> LeaseOk(leases, l)
  }

  predicate LeaseOk(leases: seq<Lease>, l: nat)
    requires l < |leases|
  {
    match leases[l].parent
    case None => leases[l].exclusive == leases[l].kind.Root?
    case Some(p) => p < l && leases[l].kind.Ordinary? && leases[l].exclusive == leases[p].exclusive
  }

  lemma {:induction false} DescendsStable(old_: seq<Lease>, new_: seq<Lease>, l: nat, r: nat)
    requires l < |old_| <= |new_|
    requires forall i :: 0 <= i < |old_| ==> new_[i].parent == old_[i].parent
    ensures Descends(new_, l, r) == Descends(old_, l, r)
    decreases l
  {
    if l != r && old_[l].parent.Some? && old_[l].parent.value < l {
      DescendsStable(old_, new_, old_[l].parent.value, r);
    }
  }

  lemma {:induction false} DescendantsExclusive(leases: seq<Lease>, l: nat, r: nat)
    requires Forest(leases) && l < |leases| && r < |leases| && leases[r].exclusive && Descends(leases, l, r)
    ensures leases[l].exclusive
    decreases l
  {
    assert LeaseOk(leases, l);
    if l != r {
      DescendantsExclusive(leases, leases[l].parent.value, r);
    }
  }

  lemma {:induction false} LiveCountUpdate(leases: seq<Lease>, l: nat)
    requires l < |leases| && leases[l].active
    ensures LiveCount(leases[l := leases[l].(active := false)])
         == LiveCount(leases) - (if leases[l].kind.Root? then 0 else 1)
  {
    var closed := leases[l := leases[l].(active := false)];
    var n := |leases| - 1;
    if l == n {
      assert closed[..n] == leases[..n];
    } else {
      LiveCountUpdate(leases[..n], l);
      assert closed[..n] == leases[..n][l := leases[..n][l].(active := false)];
    }
  }

  lemma LiveCountAppend(leases: seq<Lease>, lease: Lease)
    ensures LiveCount(leases + [lease])
         == LiveCount(leases) + (if lease.active && !lease.kind.Root? then 1 else 0)
  {
    assert (leases + [lease])[..|leases|] == leases;
  }

  lemma {:induction false} LiveCountZero(leases: seq<Lease>)
    ensures LiveCount(leases) == 0 <==> forall l :: 0 <= l < |leases| && leases[l].active ==> leases[l].kind.Root?
  {
    if leases != [] {
      var n := |leases| - 1;
      LiveCountZero(leases[..n]);
      assert forall l :: 0 <= l < n ==> leases[..n][l] == leases[l];
    }
  }

  // ----- Safety

  /** Ownership, busy flag and lease counter. */
  predicate Lifecycle(m: Memory, leases: seq<Lease>, held: bool) {
    && (m.owned <==> m.state != Stopped)
    && (m.state == Maintenance || m.state == Migrating ==> m.busy)
    && (m.busy <==> held)
    && m.active == LiveCount(leases)
    && (!m.owned ==> Idle(m))
    && (m.state == Initializing && !m.busy ==> m.active == 0)
  }

  predicate HolderOk(s: Sys) {
    s.holder.Some? ==> s.holder.value < |s.tasks| && Driver(s.tasks[s.holder.value].pc)
  }

  function HolderPc(s: Sys): Pc
    requires HolderOk(s)
  {
    if s.holder.Some? then s.tasks[s.holder.value].pc else Dead
  }

  /** Exactly the holder of `busy` drives, and operations nested in it are inside its caller code. */
  predicate Drivers(s: Sys) {
    && HolderOk(s)
    && (forall t :: 0 <= t < |s.tasks| && Driver(s.tasks[t].pc) ==> s.holder == Some(t))
    && (s.mem.initializing <==> HolderPc(s).Starting?)
    && (forall t :: 0 <= t < |s.tasks| && s.tasks[t].pc.Nesting? ==> HolderPc(s).Starting?)
    && (forall t :: 0 <= t < |s.tasks| && Frame(s.tasks[t].pc) ==> CallerCode(HolderPc(s)))
  }

  /** From the end of the drain, or from initialization, until `busy` is given back. */
  predicate Sealed(pc: Pc) {
    pc.Starting? || (pc.Operating? && SealedPoint(pc.op))
  }

  predicate SealedPoint(op: OpPoint) {
    match op
    case RecordingWaiting(_, _) => false
    case Draining(_) => false
    case Aborting(_) => false
    case FinishingCancelled(_) => false
    case RecordingCancelled(_, _) => false
    case Leaving(returned) => returned
    case _ => true
  }

  function RootOf(pc: Pc): Option<nat> {
    if Driver(pc) then pc.root else None
  }

  predicate Under(leases: seq<Lease>, l: nat, root: Option<nat>) {
    root.Some? && Descends(leases, l, root.value)
  }

  /** The live uncounted lease is the driver's. */
  predicate Roots(leases: seq<Lease>, root: Option<nat>) {
    && (root.Some? ==> root.value < |leases| && leases[root.value].active && leases[root.value].kind.Root?)
    && (forall l :: 0 <= l < |leases| && leases[l].active && leases[l].kind.Root? ==> root == Some(l))
  }

  predicate AllUnder(leases: seq<Lease>, root: Option<nat>) {
    forall l :: 0 <= l < |leases| && leases[l].active ==> Under(leases, l, root)
  }

  /** The forest, its live root, and exclusion in a sealed region. */
  predicate Leases(leases: seq<Lease>, pc: Pc) {
    Forest(leases) && Roots(leases, RootOf(pc)) && (Sealed(pc) ==> AllUnder(leases, RootOf(pc)))
  }

  predicate Entered(before: RuntimeState) { before == Ready || before == MigrationRequired || before == Error }

  predicate Shut(m: Memory) { m.state == Error || m.state == Stopping }

  predicate JobIs(m: Memory, a: JobStatus, b: JobStatus) {
    m.job.Some? && (m.job.value.status == a || m.job.value.status == b)
  }

  /** Job, state and root at each point of an operation. */
  predicate OpState(m: Memory, root: Option<nat>, op: OpPoint) {
    match op
    case RecordingWaiting(_, b) => root.None? && JobIs(m, Waiting, Cancelled) && Entered(b)
    case Draining(b) => root.None? && JobIs(m, Waiting, Cancelled) && Entered(b)
    case RecordingRunning(_, b) => root.None? && JobIs(m, Running, Running) && Entered(b)
    case Activating => root.Some? && JobIs(m, Running, Running)
    case Body => root.Some? && JobIs(m, Running, Running)
    case Checking => root.Some? && JobIs(m, Running, Running)
    case Closing(_) => root.Some? && JobIs(m, Running, Running)
    case FinishingSucceeded => root.None? && JobIs(m, Running, Running)
    case RecordingSucceeded(_) => root.None? && JobIs(m, Succeeded, Succeeded)
    case Failing => root.None? && JobIs(m, Running, Succeeded)
    case FinishingFailed => root.None? && JobIs(m, Running, Succeeded) && Shut(m)
    case RecordingFailed(_) => root.None? && JobIs(m, Failed, Failed) && Shut(m)
    case Aborting(b) => root.None? && m.job.Some? && Entered(b)
    case FinishingCancelled(b) => root.None? && m.job.Some? && Entered(b) && (Shut(m) || m.state == b)
    case RecordingCancelled(_, b) => root.None? && JobIs(m, Cancelled, Cancelled) && Entered(b) && (Shut(m) || m.state == b)
    case Leaving(true) => root.None? && JobIs(m, Succeeded, Succeeded)
    case Leaving(false) => root.None? && JobIs(m, Failed, Cancelled) && (Shut(m) || Entered(m.state))
  }

  /** State and root at each point of initialization. */
  predicate InitState(m: Memory, root: Option<nat>, init: InitPoint) {
    match init
    case ClosingInit(NeedsRecovery) => root.Some? && Shut(m)
    case ClosingInit(Inspected(st)) => root.Some? && ProbeResult(st)
    case FailingInit => root.None?
    case LeavingInit(Inspected(st)) => root.None? && ProbeResult(st)
    case LeavingInit(_) => root.None? && Shut(m)
    case _ => root.Some?
  }

  predicate DriverState(m: Memory, pc: Pc) {
    && (pc.Operating? ==> OpState(m, pc.root, pc.op))
    && (pc.Starting? ==> InitState(m, pc.root, pc.init))
  }

  /** The job at each point of an operation nested in initialization. */
  predicate NestState(m: Memory, nest: NestPoint) {
    match nest
    case Entering(_, _) => !JobRuns(m)
    case Naming(_, _) => !JobRuns(m)
    case RecordingStart(_) => JobIs(m, Running, Running)
    case NestedBody => JobIs(m, Running, Running)
    case FinishingNested(_) => JobIs(m, Running, Running)
    case RecordingNested(_, ok) => if ok then JobIs(m, Succeeded, Succeeded) else JobIs(m, Failed, Failed)
  }

  predicate Safe(s: Sys) {
    && Drivers(s)
    && Lifecycle(s.mem, s.leases, s.holder.Some? || s.wedged)
    && (s.wedged ==> s.holder.None?)
    && Leases(s.leases, HolderPc(s))
    && DriverState(s.mem, HolderPc(s))
  }
}
