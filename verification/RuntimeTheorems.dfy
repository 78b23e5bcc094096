/**
  The coordinator's guarantees over whole runs: any number of callers, any
  interleaving, failing journal writes and crashes, from any journal on disk.
 */
module RuntimeTheorems {
  import opened Wrappers
  import opened RuntimeTypes
  import opened RuntimeProtocol
  import opened RuntimeInvariant
  import opened RuntimeSafety
  import opened RuntimeHistory
  import opened RuntimeDurability

  // ----- Invariants of runs

  lemma BootInvariant(journal: Journal)
    ensures Safe(Boot(journal)) && Histories(Boot(journal)) && Durable(Boot(journal))
  {
    var s := Boot(journal);
    assert s.holder.None? && s.tasks == [] && s.leases == [];
  }

  lemma {:induction false} NestedRunKeeps(s: Sys, actions: seq<Action>)
    requires Safe(s) && Histories(s) && Runs(s, actions) && NestedRun(s, actions)
    ensures Safe(After(s, actions)) && Histories(After(s, actions))
    decreases |actions|
  {
    if actions != [] {
      StepSafe(s, actions[0]);
      StepHistory(s, actions[0]);
      NestedRunKeeps(Next(s, actions[0]).value, actions[1..]);
    }
  }

  lemma {:induction false} DisciplinedRunKeeps(s: Sys, actions: seq<Action>)
    requires Safe(s) && Durable(s) && Runs(s, actions) && DisciplinedRun(s, actions)
    ensures Safe(After(s, actions)) && Durable(After(s, actions))
    decreases |actions|
  {
    if actions != [] {
      StepDurable(s, actions[0]);
      DisciplinedRunKeeps(Next(s, actions[0]).value, actions[1..]);
    }
  }

  // ----- Exclusion

  /**
    While an operation is past its drain, or initialization runs, nobody else drives,
    and every live lease descends from the region's own root; without a root none is live.
   */
  lemma ExclusiveRegion(journal: Journal, actions: seq<Action>, t: nat)
    requires Runs(Boot(journal), actions) && NestedRun(Boot(journal), actions)
    requires t < |After(Boot(journal), actions).tasks| && Sealed(After(Boot(journal), actions).tasks[t].pc)
    ensures
      var s := After(Boot(journal), actions);
      && s.mem.busy
      && (forall u :: 0 <= u < |s.tasks| && Driver(s.tasks[u].pc) ==> u == t)
      && (forall l :: 0 <= l < |s.leases| && s.leases[l].active ==>
            s.leases[l].exclusive && Under(s.leases, l, s.tasks[t].pc.root))
  {
    BootInvariant(journal);
    NestedRunKeeps(Boot(journal), actions);
    var s := After(Boot(journal), actions);
    assert s.holder == Some(t);
    SealedIsExclusive(s);
  }

  /** An operation called inside an exclusive body runs only inside such a region. */
  lemma NestedCallsAreCovered(journal: Journal, actions: seq<Action>, t: nat)
    requires Runs(Boot(journal), actions) && NestedRun(Boot(journal), actions)
    requires t < |After(Boot(journal), actions).tasks| && Frame(After(Boot(journal), actions).tasks[t].pc)
    ensures
      var s := After(Boot(journal), actions);
      exists h :: 0 <= h < |s.tasks| && CallerCode(s.tasks[h].pc) && Sealed(s.tasks[h].pc) && s.tasks[h].pc.root.Some?
  {
    BootInvariant(journal);
    NestedRunKeeps(Boot(journal), actions);
    var s := After(Boot(journal), actions);
    assert CallerCode(s.tasks[s.holder.value].pc);
  }

  /** The two guarantees at once: regions are alone, and nested operations run inside the body of one. */
  predicate Exclusive(s: Sys) {
    && (forall t, l :: 0 <= t < |s.tasks| && Sealed(s.tasks[t].pc) && 0 <= l < |s.leases| && s.leases[l].active ==>
          Under(s.leases, l, s.tasks[t].pc.root))
    && (forall t :: 0 <= t < |s.tasks| && Frame(s.tasks[t].pc) ==> exists h :: 0 <= h < |s.tasks| && CallerCode(s.tasks[h].pc))
  }

  predicate AlwaysExclusive(s: Sys, actions: seq<Action>)
    requires Runs(s, actions)
    decreases |actions|
  {
    Exclusive(s) && (actions == [] || AlwaysExclusive(Next(s, actions[0]).value, actions[1..]))
  }

  lemma SafeExclusive(s: Sys)
    requires Safe(s)
    ensures Exclusive(s)
  {
    if s.holder.Some? {
      assert CallerCode(HolderPc(s)) ==> CallerCode(s.tasks[s.holder.value].pc);
    }
  }

  /** One call moves to a point outside caller code. */
  predicate LeavesBody(s: Sys, s': Sys, t: nat)
    requires t < |s.tasks|
  {
    && |s'.tasks| == |s.tasks| && !CallerCode(s'.tasks[t].pc)
    && forall u :: 0 <= u < |s.tasks| && u != t ==> s'.tasks[u] == s.tasks[u]
  }

  lemma OperatorBodyEnds(s: Sys, t: nat, root: Option<nat>, o: Outcome)
    requires t < |s.tasks| && MoveOperator(s, t, root, Body, o).Some?
    ensures LeavesBody(s, MoveOperator(s, t, root, Body, o).value, t)
  {
    assert OpStep(View(s, t), root, Body, o) == Some(OpAt(View(s, t), root, if o.Fails? then Closing(false) else Checking));
  }

  lemma PrepareEnds(s: Sys, t: nat, root: Option<nat>, o: Outcome)
    requires t < |s.tasks| && MoveInitializer(s, t, root, Preparing, o).Some?
    ensures LeavesBody(s, MoveInitializer(s, t, root, Preparing, o).value, t)
  {
    assert InitStep(View(s, t), root, Preparing, o)
        == Some(InitAt(View(s, t), root, if o.Fails? then ClosingInit(Broken) else Inspecting));
  }

  lemma BodyEnds(s: Sys, t: nat, o: Outcome)
    requires t < |s.tasks| && CallerCode(s.tasks[t].pc) && Move(s, t, o).Some?
    ensures LeavesBody(s, Move(s, t, o).value, t)
  {
    match s.tasks[t].pc
    case Operating(root, op) => OperatorBodyEnds(s, t, root, o);
    case Starting(root, init) => PrepareEnds(s, t, root, o);
  }

  /** A body that ends before an operation called in it leaves that operation outside. */
  lemma BodyEndsLast(s: Sys, t: nat, o: Outcome)
    requires Drivers(s) && t < |s.tasks| && CallerCode(s.tasks[t].pc) && Move(s, t, o).Some? && Exclusive(Move(s, t, o).value)
    ensures NoFrames(s)
  {
    var s' := Move(s, t, o).value;
    BodyEnds(s, t, o);
    OnlyCallerCode(s, s', t);
    assert forall u :: 0 <= u < |s.tasks| && u != t ==> s'.tasks[u].pc == s.tasks[u].pc;
  }

  lemma OnlyCallerCode(s: Sys, s': Sys, t: nat)
    requires Drivers(s) && t < |s.tasks| && Driver(s.tasks[t].pc) && LeavesBody(s, s', t)
    ensures forall h :: 0 <= h < |s'.tasks| ==> !CallerCode(s'.tasks[h].pc)
  {
  }

  lemma RootCloses(s: Sys, t: nat, o: Outcome)
    requires t < |s.tasks| && ClosesRoot(s.tasks[t].pc) && Move(s, t, o).Some?
    ensures
      var s' := Move(s, t, o).value;
      && t < |s'.tasks| && Sealed(s'.tasks[t].pc) && s'.tasks[t].pc.root == None
      && |s'.leases| == |s.leases| && (forall l :: 0 <= l < |s.leases| && s.tasks[t].pc.root != Some(l) ==> s'.leases[l] == s.leases[l])
  {
  }

  lemma AloneWithoutRoot(s: Sys, t: nat)
    requires Exclusive(s) && t < |s.tasks| && Sealed(s.tasks[t].pc) && s.tasks[t].pc.root == None
    ensures forall l :: 0 <= l < |s.leases| ==> !s.leases[l].active
  {
  }

  /** A root that closes before a lease under it leaves that lease outside. */
  lemma RootClosesLast(s: Sys, t: nat, o: Outcome)
    requires t < |s.tasks| && ClosesRoot(s.tasks[t].pc) && Move(s, t, o).Some? && Exclusive(Move(s, t, o).value)
    ensures OnlyRoot(s, s.tasks[t].pc.root)
  {
    RootCloses(s, t, o);
    AloneWithoutRoot(Move(s, t, o).value, t);
  }

  lemma CalledFromBody(s: Sys, p: nat, operation: Operation, id: nat)
    requires Drivers(s) && CallNested(s, p, operation, id).Some? && Exclusive(CallNested(s, p, operation, id).value)
    ensures CalledInside(s, CallOperation(Some(p), operation, id))
  {
    var s' := CallNested(s, p, operation, id).value;
    assert Frame(s'.tasks[|s.tasks|].pc);
    var h :| 0 <= h < |s'.tasks| && CallerCode(s'.tasks[h].pc);
    assert Driver(s.tasks[h].pc);
  }

  lemma ExclusiveNested(s: Sys, a: Action)
    requires Safe(s) && Enabled(s, a) && Exclusive(Next(s, a).value)
    ensures Nested(s, a)
  {
    match a
    case Advance(t, o) =>
      if CallerCode(s.tasks[t].pc) {
        BodyEndsLast(s, t, o);
      }
      if ClosesRoot(s.tasks[t].pc) {
        RootClosesLast(s, t, o);
      }
    case CallOperation(Some(p), operation, id) => CalledFromBody(s, p, operation, id);
    case _ =>
  }

  /** A step from a safe state keeps the guarantees if and only if it is well nested. */
  lemma StepExclusive(s: Sys, a: Action)
    requires Safe(s) && Enabled(s, a)
    ensures Exclusive(Next(s, a).value) <==> Nested(s, a)
  {
    if Exclusive(Next(s, a).value) {
      ExclusiveNested(s, a);
    }
    if Nested(s, a) {
      StepSafe(s, a);
      SafeExclusive(Next(s, a).value);
    }
  }

  /** The conditions are exact: the guarantees hold throughout a run if and only if all its steps are well nested. */
  lemma ExclusionExactly(journal: Journal, actions: seq<Action>)
    requires Runs(Boot(journal), actions)
    ensures AlwaysExclusive(Boot(journal), actions) <==> NestedRun(Boot(journal), actions)
  {
    BootInvariant(journal);
    ExclusiveRun(Boot(journal), actions);
  }

  lemma {:induction false} ExclusiveRun(s: Sys, actions: seq<Action>)
    requires Safe(s) && Runs(s, actions)
    ensures AlwaysExclusive(s, actions) <==> NestedRun(s, actions)
    decreases |actions|
  {
    SafeExclusive(s);
    if actions != [] {
      StepExclusive(s, actions[0]);
      if Nested(s, actions[0]) {
        StepSafe(s, actions[0]);
        ExclusiveRun(Next(s, actions[0]).value, actions[1..]);
      }
    }
  }

  /** A finished lease stays finished, and no lease opened afterwards inherits from it. */
  lemma {:induction false} FinishedLeaseIsNeverReentered(s: Sys, actions: seq<Action>, l: nat, from_: nat)
    requires Runs(s, actions) && l < |s.leases| && !s.leases[l].active && from_ <= |s.leases|
    requires forall k :: from_ <= k < |s.leases| ==> s.leases[k].parent != Some(l)
    ensures
      var s' := After(s, actions);
      && l < |s'.leases| && !s'.leases[l].active
      && (forall k :: from_ <= k < |s'.leases| ==> s'.leases[k].parent != Some(l))
    decreases |actions|
  {
    if actions != [] {
      StepGrows(s, actions[0]);
      var s' := Next(s, actions[0]).value;
      assert LeaseFades(s.leases[l], s'.leases[l]);
      forall k | from_ <= k < |s'.leases|
        ensures s'.leases[k].parent != Some(l)
      {
        if k < |s.leases| {
          assert LeaseFades(s.leases[k], s'.leases[k]);
        }
      }
      FinishedLeaseIsNeverReentered(s', actions[1..], l, from_);
    }
  }

  // ----- Lifecycle

  /** Owner, busy flag and lease counter agree in every reachable state. */
  lemma LifecycleOfEveryRun(journal: Journal, actions: seq<Action>)
    requires Runs(Boot(journal), actions) && NestedRun(Boot(journal), actions)
    ensures
      var s := After(Boot(journal), actions);
      && (s.mem.state == Stopped <==> !s.mem.owned)
      && (s.mem.state == Maintenance || s.mem.state == Migrating ==> s.mem.busy)
      && ((s.mem.busy <==> exists t :: 0 <= t < |s.tasks| && Driver(s.tasks[t].pc)) <==> !LeftBusy(actions, false))
      && (LeftBusy(actions, false) ==> s.mem.busy)
      && s.mem.active == LiveCount(s.leases)
      && (!s.mem.owned ==> s.mem.active == 0 && !s.mem.busy)
  {
    BootInvariant(journal);
    NestedRunKeeps(Boot(journal), actions);
    var s := After(Boot(journal), actions);
    WedgedByCall(Boot(journal), actions);
    if s.holder.Some? {
      assert Driver(s.tasks[s.holder.value].pc);
    }
  }

  /** A call with an unparsable job id got as far as setting `busy` since the last crash. */
  predicate LeftBusy(actions: seq<Action>, before: bool) {
    if actions == [] then before
    else LeftBusy(actions[1..], if actions[0].Crash? then false else before || actions[0].CallUnnamed?)
  }

  lemma MoveWedges(s: Sys, t: nat, o: Outcome)
    requires Move(s, t, o).Some?
    ensures Move(s, t, o).value.wedged == s.wedged
  {
  }

  lemma WedgedStep(s: Sys, a: Action)
    requires Enabled(s, a)
    ensures Next(s, a).value.wedged == if a.Crash? then false else s.wedged || a.CallUnnamed?
  {
    match a
    case Advance(t, o) => MoveWedges(s, t, o);
    case _ =>
  }

  lemma {:induction false} WedgedByCall(s: Sys, actions: seq<Action>)
    requires Runs(s, actions)
    ensures After(s, actions).wedged == LeftBusy(actions, s.wedged)
    decreases |actions|
  {
    if actions != [] {
      WedgedStep(s, actions[0]);
      WedgedByCall(Next(s, actions[0]).value, actions[1..]);
    }
  }

  /** `busy` without a call that could give it back. */
  predicate NobodyDrives(s: Sys) {
    s.mem.busy && s.mem.owned && forall t :: 0 <= t < |s.tasks| ==> !Driver(s.tasks[t].pc)
  }

  lemma NobodyMoves(s: Sys, t: nat, o: Outcome)
    requires NobodyDrives(s) && Move(s, t, o).Some?
    ensures NobodyDrives(Move(s, t, o).value)
  {
    if s.tasks[t].pc.Nesting? {
      NestStepDrivesNot(View(s, t), s.tasks[t].pc.nest, o);
    }
  }

  lemma NestStepDrivesNot(l: Local, nest: NestPoint, o: Outcome)
    ensures
      var l' := NestStep(l, nest, o);
      l'.mem.busy == l.mem.busy && l'.mem.owned == l.mem.owned && !Driver(l'.task.pc)
  {
  }

  lemma NobodyDrivesStep(s: Sys, a: Action)
    requires NobodyDrives(s) && Enabled(s, a) && !a.Crash?
    ensures NobodyDrives(Next(s, a).value)
  {
    match a
    case Advance(t, o) => NobodyMoves(s, t, o);
    case _ =>
  }

  predicate WithoutCrash(actions: seq<Action>) { forall i :: 0 <= i < |actions| ==> !actions[i].Crash? }

  /**
    Short of a crash, nothing ever gives such a `busy` back: nothing ordinary is admitted or
    inspected, no operation or initialization starts, and ownership is never released.
   */
  lemma {:induction false} BusyForGood(s: Sys, actions: seq<Action>)
    requires NobodyDrives(s) && Runs(s, actions) && WithoutCrash(actions)
    ensures
      var s' := After(s, actions);
      && NobodyDrives(s') && AdmitLease(s', None).None? && InspectLease(s').None? && Initialize(s').None?
      && (forall operation, id :: CallDriver(s', operation, id).None?)
      && (forall t :: WakeStopper(s', t).None?)
    decreases |actions|
  {
    if actions != [] {
      NobodyDrivesStep(s, actions[0]);
      BusyForGood(Next(s, actions[0]).value, actions[1..]);
    }
  }

  /** An unparsable job id has this effect in every reachable state in which it is not refused. */
  lemma UnparsableJobId(journal: Journal, actions: seq<Action>, operation: Operation, later: seq<Action>)
    requires Runs(Boot(journal), actions) && NestedRun(Boot(journal), actions)
    requires CallWithoutId(After(Boot(journal), actions), operation).Some?
    requires Runs(CallWithoutId(After(Boot(journal), actions), operation).value, later) && WithoutCrash(later)
    ensures
      var s := After(CallWithoutId(After(Boot(journal), actions), operation).value, later);
      NobodyDrives(s) && AdmitLease(s, None).None? && InspectLease(s).None?
  {
    BootInvariant(journal);
    NestedRunKeeps(Boot(journal), actions);
    var s := CallWithoutId(After(Boot(journal), actions), operation).value;
    BusyForGood(s, later);
  }

  /** Short of a crash, stopping is left only to stopped, and only when nothing is left. */
  lemma StoppingIsFinal(s: Sys, a: Action)
    requires Safe(s) && Enabled(s, a) && !a.Crash? && s.mem.state == Stopping
    ensures Next(s, a).value.mem.state == Stopping || Next(s, a).value.mem.state == Stopped
    ensures Next(s, a).value.mem.state == Stopped ==> s.mem.active == 0 && !s.mem.busy
  {
    match a
    case Advance(t, o) => MoveDefers(s, t, o);
    case _ =>
  }

  /** A step of a call neither takes nor gives ownership, and does not revive a stopping runtime. */
  predicate Deferential(m: Memory, m': Memory) {
    m'.owned == m.owned && (m.state == Stopping ==> m'.state == Stopping)
  }

  lemma OpStepDefers(l: Local, root: Option<nat>, op: OpPoint, o: Outcome)
    requires OpStep(l, root, op, o).Some?
    ensures Deferential(l.mem, OpStep(l, root, op, o).value.mem)
  {
  }

  lemma InitStepDefers(l: Local, root: Option<nat>, init: InitPoint, o: Outcome)
    requires InitStep(l, root, init, o).Some?
    ensures Deferential(l.mem, InitStep(l, root, init, o).value.mem)
  {
  }

  lemma NestStepDefers(l: Local, nest: NestPoint, o: Outcome)
    ensures Deferential(l.mem, NestStep(l, nest, o).mem)
  {
  }

  lemma MoveOperatorDefers(s: Sys, t: nat, root: Option<nat>, op: OpPoint, o: Outcome)
    requires t < |s.tasks| && MoveOperator(s, t, root, op, o).Some?
    ensures Deferential(s.mem, MoveOperator(s, t, root, op, o).value.mem)
  {
    if !op.Closing? && !op.Leaving? && !StartsRegion(op, o) {
      OpStepDefers(View(s, t), root, op, o);
    }
  }

  lemma MoveInitializerDefers(s: Sys, t: nat, root: Option<nat>, init: InitPoint, o: Outcome)
    requires t < |s.tasks| && MoveInitializer(s, t, root, init, o).Some?
    ensures Deferential(s.mem, MoveInitializer(s, t, root, init, o).value.mem)
  {
    if !init.ClosingInit? && !init.LeavingInit? {
      InitStepDefers(View(s, t), root, init, o);
    }
  }

  lemma MoveDefers(s: Sys, t: nat, o: Outcome)
    requires Move(s, t, o).Some?
    ensures Deferential(s.mem, Move(s, t, o).value.mem)
  {
    match s.tasks[t].pc
    case Operating(root, op) => MoveOperatorDefers(s, t, root, op, o);
    case Starting(root, init) => MoveInitializerDefers(s, t, root, init, o);
    case Nesting(nest) => NestStepDefers(View(s, t), nest, o);
    case Riding =>
  }

  /** Short of a crash, ownership is given up only while no lease is live and no call drives. */
  lemma OwnershipEndsIdle(s: Sys, a: Action)
    requires Safe(s) && Enabled(s, a) && !a.Crash? && s.mem.owned && !Next(s, a).value.mem.owned
    ensures forall l :: 0 <= l < |s.leases| ==> !s.leases[l].active
    ensures forall t :: 0 <= t < |s.tasks| ==> !Driver(s.tasks[t].pc) && !Frame(s.tasks[t].pc)
  {
    ReleasedIdle(s, a);
    IdleSystem(s);
  }

  lemma ReleasedIdle(s: Sys, a: Action)
    requires Enabled(s, a) && !a.Crash? && s.mem.owned && !Next(s, a).value.mem.owned
    ensures Idle(s.mem)
  {
    match a
    case Advance(t, o) => MoveDefers(s, t, o);
    case _ =>
  }

  lemma IdleSystem(s: Sys)
    requires Safe(s) && Idle(s.mem)
    ensures forall l :: 0 <= l < |s.leases| ==> !s.leases[l].active
    ensures forall t :: 0 <= t < |s.tasks| ==> !Driver(s.tasks[t].pc) && !Frame(s.tasks[t].pc)
  {
    LiveCountZero(s.leases);
  }

  // ----- Outcomes of operations

  lemma {:induction false} FlagsPersist(s: Sys, actions: seq<Action>, t: nat)
    requires Runs(s, actions) && t < |s.tasks|
    ensures t < |After(s, actions).tasks| && TaskGrows(s.tasks[t], After(s, actions).tasks[t])
    decreases |actions|
  {
    if actions != [] {
      StepGrows(s, actions[0]);
      var s' := Next(s, actions[0]).value;
      assert TaskGrows(s.tasks[t], s'.tasks[t]);
      FlagsPersist(s', actions[1..], t);
    }
  }

  /**
    Once `cancel` returned true, no operation that was in flight then ever runs its body or
    returns, whatever follows. (A job that initialization loaded has no call in flight.)
   */
  lemma CancelledBodyNeverRuns(journal: Journal, actions: seq<Action>, id: nat, later: seq<Action>, t: nat)
    requires Runs(Boot(journal), actions) && NestedRun(Boot(journal), actions)
    requires Enabled(After(Boot(journal), actions), DoCancel(id))
    requires t < |After(Boot(journal), actions).tasks| && After(Boot(journal), actions).tasks[t].pc.Operating?
    requires Runs(Next(After(Boot(journal), actions), DoCancel(id)).value, later)
    requires NestedRun(Next(After(Boot(journal), actions), DoCancel(id)).value, later)
    ensures
      var s' := After(Next(After(Boot(journal), actions), DoCancel(id)).value, later);
      t < |s'.tasks| && !s'.tasks[t].bodyStarted && s'.tasks[t].pc != Done(true)
  {
    BootInvariant(journal);
    NestedRunKeeps(Boot(journal), actions);
    CancelLasts(After(Boot(journal), actions), id, later, t);
  }

  lemma CancelLasts(s: Sys, id: nat, later: seq<Action>, t: nat)
    requires Safe(s) && Histories(s) && CancelJob(s, id).Some? && t < |s.tasks| && s.tasks[t].pc.Operating?
    requires Runs(CancelJob(s, id).value, later) && NestedRun(CancelJob(s, id).value, later)
    ensures
      var s' := After(CancelJob(s, id).value, later);
      t < |s'.tasks| && !s'.tasks[t].bodyStarted && s'.tasks[t].pc != Done(true)
  {
    var c := CancelJob(s, id).value;
    CancelSafe(s, id);
    CancelHistory(s, id);
    CancelNoted(s, id, t);
    FlagsPersist(c, later, t);
    NestedRunKeeps(c, later);
    assert TaskHistory(After(c, later).tasks[t], After(c, later).mem);
  }

  lemma CancelNoted(s: Sys, id: nat, t: nat)
    requires Safe(s) && Histories(s) && CancelJob(s, id).Some? && t < |s.tasks| && s.tasks[t].pc.Operating?
    ensures
      var s' := CancelJob(s, id).value;
      t < |s'.tasks| && s'.tasks[t].kind.Operator? && s'.tasks[t].cancelAccepted
  {
    assert s.holder == Some(t) && TaskHistory(s.tasks[t], s.mem);
  }

  /**
    `operation` returns only after its body ran, the check reported ready and the success
    was on disk; if it raises, a body that had started leaves its job failed.
   */
  lemma OperationOutcome(journal: Journal, actions: seq<Action>, t: nat)
    requires Runs(Boot(journal), actions) && NestedRun(Boot(journal), actions)
    requires t < |After(Boot(journal), actions).tasks| && After(Boot(journal), actions).tasks[t].kind.Operator?
    ensures
      var task := After(Boot(journal), actions).tasks[t];
      && (task.pc == Done(true) ==>
            task.bodyStarted && task.checked && task.finished == Some(Succeeded) && task.saved == Some(Succeeded))
      && (task.pc == Done(false) ==>
            if task.bodyStarted then task.finished == Some(Failed) && !task.cancelAccepted
            else task.finished == Some(Failed) || task.finished == Some(Cancelled))
  {
    BootInvariant(journal);
    NestedRunKeeps(Boot(journal), actions);
    var s := After(Boot(journal), actions);
    assert TaskHistory(s.tasks[t], s.mem);
  }

  // ----- Durability

  /**
    An operation that raised, before its body or after it, leaves a job that demands recovery if
    and only if its drain had gone through, or it began in error, or it inherited the demand.
   */
  lemma DemandAfterRaise(journal: Journal, actions: seq<Action>, t: nat)
    requires Runs(Boot(journal), actions) && NestedRun(Boot(journal), actions)
    requires t < |After(Boot(journal), actions).tasks| && After(Boot(journal), actions).tasks[t].kind.Operator?
    requires After(Boot(journal), actions).tasks[t].pc == Done(false)
    ensures
      var task := After(Boot(journal), actions).tasks[t];
      task.past.demand <==> task.past.drained || task.past.found == Error || task.past.inherited
  {
    BootInvariant(journal);
    NestedRunKeeps(Boot(journal), actions);
    var s := After(Boot(journal), actions);
    assert TaskHistory(s.tasks[t], s.mem);
  }

  /**
    While an exclusive body has started without completing, every record a crash may leave
    loads to a job that requires recovery, admission and inspection are refused, no ordinary lease is live, and
    an initialization under way does not end by reopening the instance.
   */
  lemma DamageIsRemembered(journal: Journal, actions: seq<Action>)
    requires Runs(Boot(journal), actions) && DisciplinedRun(Boot(journal), actions)
    requires After(Boot(journal), actions).damaged
    ensures
      var s := After(Boot(journal), actions);
      && (forall j :: j in s.disk.maybe ==> Recovers(j))
      && AdmitLease(s, None).None? && InspectLease(s).None?
      && (forall l :: 0 <= l < |s.leases| && s.leases[l].active ==> s.leases[l].exclusive)
      && (forall t :: 0 <= t < |s.tasks| && s.tasks[t].pc.Starting? && s.tasks[t].pc.init.LeavingInit? ==>
            Shut(MoveLeavingInit(s, t, s.tasks[t].pc.init.end).mem))
  {
    BootInvariant(journal);
    DisciplinedRunKeeps(Boot(journal), actions);
    var s := After(Boot(journal), actions);
  }

  /** Only a completed body ends the damage: a restart, a crash or a cancelled attempt does not. */
  lemma DamageEndsBySuccess(s: Sys, a: Action)
    requires Enabled(s, a) && s.damaged && !Next(s, a).value.damaged
    ensures Repairs(s, a)
  {
    match a
    case Advance(t, o) => MoveRepairs(s, t, o);
    case _ =>
  }

  lemma MoveRepairs(s: Sys, t: nat, o: Outcome)
    requires Move(s, t, o).Some? && s.damaged && !Move(s, t, o).value.damaged
    ensures Repairs(s, Advance(t, o))
  {
    match s.tasks[t].pc
    case Operating(root, op) => OperatorRepairs(s, t, root, op, o);
    case _ =>
  }

  lemma OperatorRepairs(s: Sys, t: nat, root: Option<nat>, op: OpPoint, o: Outcome)
    requires t < |s.tasks| && MoveOperator(s, t, root, op, o).Some? && s.damaged && !MoveOperator(s, t, root, op, o).value.damaged
    ensures op.Checking? && o == Reports(Ready)
  {
  }

  /** The step that completes a body: its check passed, or a nested body returned. */
  predicate Repairs(s: Sys, a: Action) {
    a.Advance? && a.task < |s.tasks| &&
    var pc := s.tasks[a.task].pc;
    || (pc.Operating? && pc.op.Checking? && a.outcome == Reports(Ready))
    || (pc == Nesting(NestedBody) && !a.outcome.Fails?)
  }

  predicate WithoutRepair(s: Sys, actions: seq<Action>)
    requires Runs(s, actions)
    decreases |actions|
  {
    actions == [] || (!Repairs(s, actions[0]) && WithoutRepair(Next(s, actions[0]).value, actions[1..]))
  }

  lemma {:induction false} DamagePersists(s: Sys, actions: seq<Action>)
    requires Runs(s, actions) && s.damaged && WithoutRepair(s, actions)
    ensures After(s, actions).damaged
    decreases |actions|
  {
    if actions != [] {
      if !Next(s, actions[0]).value.damaged {
        DamageEndsBySuccess(s, actions[0]);
      }
      DamagePersists(Next(s, actions[0]).value, actions[1..]);
    }
  }

  /**
    From damage on, through any crashes, restarts, cancelled and failed attempts: until a body
    completes, every record on disk demands recovery and no ordinary or inspection lease is granted.
   */
  lemma ClosedUntilRepaired(journal: Journal, actions: seq<Action>, later: seq<Action>)
    requires Runs(Boot(journal), actions) && DisciplinedRun(Boot(journal), actions) && After(Boot(journal), actions).damaged
    requires Runs(After(Boot(journal), actions), later) && DisciplinedRun(After(Boot(journal), actions), later)
    requires WithoutRepair(After(Boot(journal), actions), later)
    ensures
      var s := After(After(Boot(journal), actions), later);
      && (forall j :: j in s.disk.maybe ==> Recovers(j))
      && AdmitLease(s, None).None? && InspectLease(s).None?
  {
    BootInvariant(journal);
    DisciplinedRunKeeps(Boot(journal), actions);
    DamagePersists(After(Boot(journal), actions), later);
    DisciplinedRunKeeps(After(Boot(journal), actions), later);
    var s := After(After(Boot(journal), actions), later);
  }

  /** An exclusive body in progress: an operation's, a nested operation's, or one that runs along. */
  predicate BodyInProgress(pc: Pc) {
    (pc.Operating? && pc.op.Body?) || pc == Nesting(NestedBody) || pc.Riding?
  }

  /** Whenever a body is in progress, every record a crash may leave demands recovery. */
  lemma BodiesAreCovered(journal: Journal, actions: seq<Action>, t: nat)
    requires Runs(Boot(journal), actions) && DisciplinedRun(Boot(journal), actions)
    requires t < |After(Boot(journal), actions).tasks| && BodyInProgress(After(Boot(journal), actions).tasks[t].pc)
    ensures
      var s := After(Boot(journal), actions);
      s.damaged && forall j :: j in s.disk.maybe ==> Recovers(j)
  {
    BootInvariant(journal);
    DisciplinedRunKeeps(Boot(journal), actions);
    var s := After(Boot(journal), actions);
    CoveredBody(s, t);
  }

  lemma CoveredBody(s: Sys, t: nat)
    requires Safe(s) && Durable(s) && t < |s.tasks| && BodyInProgress(s.tasks[t].pc)
    ensures s.damaged
  {
    if s.tasks[t].pc.Riding? {
      assert Rides(s) && Frame(s.tasks[t].pc);
    }
  }

  // ----- When `prepare` swallows a failure

  /**
    Where the other conditions were met, `prepare` returns, the probe reports ready and
    initialization ends: ordinary admission is then open, on damaged storage if and only if the last
    body that `prepare` ran raised. The job tells as much unless the start record of a later
    operation failed: failed means it did, running leaves it to `raised`, and every other status
    means it did not.
   */
  lemma PreparedReopening(s: Sys, t: nat)
    requires Safe(s) && Durable(s) && s.holder == Some(t)
    requires s.tasks[t].pc.Starting? && s.tasks[t].pc.init.Preparing? && s.nested.None? && s.mem.state != Stopping
    ensures
      var run := [Advance(t, Fine), Advance(t, Reports(Ready)), Advance(t, Fine), Advance(t, Fine)];
      && Runs(s, run)
      && AdmitLease(After(s, run), None).Some?
      && (After(s, run).damaged <==> s.raised)
      && (s.raised <==> JobIs(s.mem, Failed, Failed) || (JobIs(s.mem, Running, Running) && s.raised))
  {
    var root := s.tasks[t].pc.root;
    assert RootOf(HolderPc(s)) == root;
    PreparedRun(s, t, root);
    ReopenedAdmits(s, t, root);
    RaisedByJob(s, t);
  }

  /** In `prepare` with nothing nested, the damage and the job tell how the last nested body ended. */
  lemma RaisedByJob(s: Sys, t: nat)
    requires Safe(s) && Durable(s) && s.holder == Some(t)
    requires s.tasks[t].pc.Starting? && s.tasks[t].pc.init.Preparing? && s.nested.None?
    ensures (s.damaged <==> s.raised) && (s.raised <==> JobIs(s.mem, Failed, Failed) || (JobIs(s.mem, Running, Running) && s.raised))
  {
  }

  /** The probe has reported ready. */
  function Reported(s: Sys, t: nat): Sys
    requires t < |s.tasks|
  {
    s.(tasks := s.tasks[t := s.tasks[t].(start := s.tasks[t].start.(probed := Some(Ready)))])
  }

  /** Initialization over, as its last section leaves it. */
  function Reopened(s: Sys, t: nat, root: nat): Sys
    requires t < |s.tasks| && root < |s.leases|
  {
    Closed(Reported(s, t), t, root)
  }

  function Closed(s: Sys, t: nat, root: nat): Sys
    requires t < |s.tasks| && root < |s.leases|
  {
    MoveLeavingInit(At(Close(s, root), t, Starting(None, LeavingInit(Inspected(Ready)))), t, Inspected(Ready))
  }

  lemma ReopenedAdmits(s: Sys, t: nat, root: Option<nat>)
    requires t < |s.tasks| && root.Some? && root.value < |s.leases| && s.mem.state != Stopping
    ensures AdmitLease(Reopened(s, t, root.value), None).Some? && Reopened(s, t, root.value).damaged == s.damaged
  {
  }

  lemma PreparedRun(s: Sys, t: nat, root: Option<nat>)
    requires t < |s.tasks| && s.tasks[t].pc == Starting(root, Preparing) && root.Some? && root.value < |s.leases|
    ensures
      var run := [Advance(t, Fine), Advance(t, Reports(Ready)), Advance(t, Fine), Advance(t, Fine)];
      Runs(s, run) && After(s, run) == Reopened(s, t, root.value)
  {
    var s1, s2, s3 := PreparedStates(s, t, root);
    FourSteps(s, [Advance(t, Fine), Advance(t, Reports(Ready)), Advance(t, Fine), Advance(t, Fine)], s1, s2, s3, Reopened(s, t, root.value));
  }

  lemma PreparedStates(s: Sys, t: nat, root: Option<nat>) returns (s1: Sys, s2: Sys, s3: Sys)
    requires t < |s.tasks| && s.tasks[t].pc == Starting(root, Preparing) && root.Some? && root.value < |s.leases|
    ensures Next(s, Advance(t, Fine)) == Some(s1) && Next(s1, Advance(t, Reports(Ready))) == Some(s2)
    ensures Next(s2, Advance(t, Fine)) == Some(s3) && Next(s3, Advance(t, Fine)) == Some(Reopened(s, t, root.value))
  {
    PreparedSteps(s, t, root);
    ProbedSteps(s, t, root);
    var r := Reported(s, t);
    PreparedCloses(r, t, root);
    s1 := At(s, t, Starting(root, Inspecting));
    s2 := At(r, t, Starting(root, ClosingInit(Inspected(Ready))));
    s3 := At(Close(r, root.value), t, Starting(None, LeavingInit(Inspected(Ready))));
  }

  lemma PreparedSteps(s: Sys, t: nat, root: Option<nat>)
    requires t < |s.tasks| && s.tasks[t].pc == Starting(root, Preparing)
    ensures Next(s, Advance(t, Fine)) == Some(At(s, t, Starting(root, Inspecting)))
  {
    assert Put(s, t, InitStep(View(s, t), root, Preparing, Fine).value) == At(s, t, Starting(root, Inspecting));
  }

  lemma ProbedSteps(s: Sys, t: nat, root: Option<nat>)
    requires t < |s.tasks|
    ensures Next(At(s, t, Starting(root, Inspecting)), Advance(t, Reports(Ready)))
         == Some(At(Reported(s, t), t, Starting(root, ClosingInit(Inspected(Ready)))))
  {
    var s1 := At(s, t, Starting(root, Inspecting));
    var s2 := At(Reported(s, t), t, Starting(root, ClosingInit(Inspected(Ready))));
    assert Put(s1, t, InitStep(View(s1, t), root, Inspecting, Reports(Ready)).value).tasks == s2.tasks;
  }

  lemma PreparedCloses(s: Sys, t: nat, root: Option<nat>)
    requires t < |s.tasks| && root.Some? && root.value < |s.leases|
    ensures Next(At(s, t, Starting(root, ClosingInit(Inspected(Ready)))), Advance(t, Fine))
         == Some(At(Close(s, root.value), t, Starting(None, LeavingInit(Inspected(Ready)))))
    ensures Next(At(Close(s, root.value), t, Starting(None, LeavingInit(Inspected(Ready)))), Advance(t, Fine))
         == Some(Closed(s, t, root.value))
  {
    var s2 := At(s, t, Starting(root, ClosingInit(Inspected(Ready))));
    assert MoveClosingInit(s2, t, root, Inspected(Ready)).value.tasks
        == At(Close(s, root.value), t, Starting(None, LeavingInit(Inspected(Ready)))).tasks;
  }

  lemma FourSteps(s: Sys, run: seq<Action>, s1: Sys, s2: Sys, s3: Sys, s4: Sys)
    requires |run| == 4
    requires Next(s, run[0]) == Some(s1) && Next(s1, run[1]) == Some(s2)
    requires Next(s2, run[2]) == Some(s3) && Next(s3, run[3]) == Some(s4)
    ensures Runs(s, run) && After(s, run) == s4
  {
    assert run[1..][0] == run[1] && run[1..][1..] == run[2..];
    assert run[2..][0] == run[2] && run[2..][1..] == run[3..];
    assert run[3..][0] == run[3] && run[3..][1..] == [];
    assert Runs(s4, []) && After(s4, []) == s4;
    assert Runs(s3, run[3..]) && After(s3, run[3..]) == s4;
    assert Runs(s2, run[2..]) && After(s2, run[2..]) == s4;
    assert Runs(s1, run[1..]) && After(s1, run[1..]) == s4;
  }
}
