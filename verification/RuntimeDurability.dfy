/**
  What the journal guarantees. While an exclusive body has started and not completed,
  every record a crash may leave behind demands recovery, and admission stays shut.
 */
module RuntimeDurability {
  import opened Wrappers
  import opened RuntimeTypes
  import opened RuntimeProtocol
  import opened RuntimeInvariant
  import opened RuntimeSafety

  predicate Recovers(j: Journal) { j.Record? && j.recovery == Some(true) }

  predicate DiskRecovers(disk: Disk) { forall j :: j in disk.maybe ==> Recovers(j) }

  /** The record on its way to the disk demands recovery. */
  predicate StageRecovers(stage: SaveStage) {
    stage.Replace? || stage.Sync? ==> JobRecovers(stage.job)
  }

  predicate Shutting(m: Memory) { m.state == Maintenance || m.state == Migrating || m.state == Stopping }

  /** The guarantee itself, as far as one call can see it. */
  predicate Guarded(l: Local) {
    && l.disk.visible in l.disk.maybe
    && (l.damaged ==> DiskRecovers(l.disk) && l.mem.state != Ready && l.mem.state != MigrationRequired)
  }

  /** Damage done earlier is carried through an operation that has not run yet. */
  predicate CarriesDamage(l: Local, before: RuntimeState) {
    l.damaged ==> before == Error && JobRecovers(l.mem.job)
  }

  predicate OpDurable(l: Local, op: OpPoint) {
    match op
    case RecordingWaiting(stage, b) => CarriesDamage(l, b) && Shutting(l.mem) && (l.damaged ==> StageRecovers(stage))
    case Draining(b) => CarriesDamage(l, b) && Shutting(l.mem)
    case RecordingRunning(stage, b) =>
      CarriesDamage(l, b) && Shutting(l.mem) && JobRecovers(l.mem.job) && StageRecovers(stage)
    case Activating => JobRecovers(l.mem.job) && Shutting(l.mem) && DiskRecovers(l.disk)
    case Body => JobRecovers(l.mem.job) && l.damaged
    case Checking => JobRecovers(l.mem.job) && l.damaged
    case Closing(ok) => ok ==> !l.damaged
    case FinishingSucceeded => !l.damaged
    case RecordingSucceeded(_) => !l.damaged
    case Failing => true
    case FinishingFailed => true
    case RecordingFailed(stage) => JobRecovers(l.mem.job) && StageRecovers(stage)
    case Aborting(b) => CarriesDamage(l, b)
    case FinishingCancelled(b) => CarriesDamage(l, b)
    case RecordingCancelled(stage, b) => CarriesDamage(l, b) && (l.damaged ==> StageRecovers(stage))
    case Leaving(returned) => returned ==> !l.damaged
  }

  predicate BeforePrepare(init: InitPoint) {
    init.Locking? || init.Loading? || init.Normalising? || init.FinishingInterrupted? || init.RecordingInterrupted?
    || init.Deciding?
  }

  /** Between nested operations: damage is a body that raised, and the job shows it unless a start record failed since. */
  predicate Between(l: Local) {
    && l.damaged == l.raised
    && (l.raised ==> JobIs(l.mem, Failed, Running)) && (JobIs(l.mem, Failed, Failed) ==> l.raised)
  }

  /** `calm` means that no nested operation is under way. */
  predicate InitDurable(l: Local, init: InitPoint, calm: bool) {
    && (BeforePrepare(init) ==> !l.raised)
    && match init
       case Normalising => l.mem.job.Some? && (l.damaged ==> JobRecovers(l.mem.job))
       case FinishingInterrupted => l.mem.job.Some?
       case RecordingInterrupted(stage) =>
         JobIs(l.mem, Interrupted, Interrupted) && JobRecovers(l.mem.job) && StageRecovers(stage)
       case Deciding =>
         && (l.damaged ==> JobRecovers(l.mem.job))
         && (l.mem.job.Some? ==> !Unfinished(l.mem.job.value.status))
       case Preparing => calm ==> Between(l)
       case Inspecting => !l.damaged
       case ClosingInit(end) => end.Inspected? ==> !l.damaged
       case LeavingInit(end) => end.Inspected? ==> !l.damaged
       case _ => true
  }

  predicate NestDurable(l: Local, nest: NestPoint) {
    match nest
    case Entering(_, _) => l.damaged == l.raised
    case Naming(_, _) => l.damaged == l.raised && Shutting(l.mem)
    case RecordingStart(stage) =>
      l.damaged == l.raised && Shutting(l.mem) && JobRecovers(l.mem.job) && StageRecovers(stage)
    case NestedBody => l.damaged && JobRecovers(l.mem.job)
    case FinishingNested(ok) => l.damaged == !ok && l.raised == !ok
    case RecordingNested(stage, ok) =>
      l.damaged == !ok && l.raised == !ok && (!ok ==> JobRecovers(l.mem.job) && StageRecovers(stage))
  }

  /** While there is damage, only leases of exclusive work are live. */
  predicate OnlyExclusive(leases: seq<Lease>) {
    forall l :: 0 <= l < |leases| && leases[l].active ==> leases[l].exclusive
  }

  predicate HolderDurable(s: Sys)
    requires HolderOk(s)
  {
    s.holder.Some? ==>
      var l := View(s, s.holder.value);
      && (l.task.pc.Operating? ==> OpDurable(l, l.task.pc.op))
      && (l.task.pc.Starting? ==> InitDurable(l, l.task.pc.init, s.nested.None?))
  }

  /** At most one nested operation is under way, and its job is where it says. */
  predicate Single(s: Sys) {
    && (s.nested.Some? ==>
          && s.nested.value < |s.tasks| && s.tasks[s.nested.value].pc.Nesting?
          && NestState(s.mem, s.tasks[s.nested.value].pc.nest))
    && (forall t :: 0 <= t < |s.tasks| && s.tasks[t].pc.Nesting? ==> s.nested == Some(t))
  }

  predicate NestedDurable(s: Sys)
    requires Single(s)
  {
    s.nested.Some? ==> NestDurable(View(s, s.nested.value), s.tasks[s.nested.value].pc.nest)
  }

  predicate InNestedBody(s: Sys)
    requires Single(s)
  {
    s.nested.Some? && s.tasks[s.nested.value].pc == Nesting(NestedBody)
  }

  /** Calls that run along do so inside an operation's body, or inside that of a nested operation. */
  predicate RidesInside(s: Sys)
    requires Drivers(s) && Single(s)
  {
    Rides(s) ==> HolderPc(s).Operating? || InNestedBody(s)
  }

  predicate GuardedSys(s: Sys) {
    && s.disk.visible in s.disk.maybe
    && (s.damaged ==>
          && DiskRecovers(s.disk) && OnlyExclusive(s.leases)
          && s.mem.state != Ready && s.mem.state != MigrationRequired)
  }

  predicate Durable(s: Sys)
    requires Safe(s)
  {
    Single(s) && GuardedSys(s) && HolderDurable(s) && NestedDurable(s) && RidesInside(s)
  }

  // ----- Steps of a call

  predicate OpDurableAfter(l: Local) { Guarded(l) && l.task.pc.Operating? && OpDurable(l, l.task.pc.op) }

  lemma SavingDurable(l: Local, op: OpPoint, o: Outcome)
    requires Recording(op) && Save(l.mem, l.disk, op.stage, o).InProgress?
    requires Guarded(l) && OpState(l.mem, None, op) && OpDurable(l, op)
    ensures OpDurableAfter(OpRecording(l, op, op.stage, o))
  {
  }

  lemma WrittenDurable(l: Local, op: OpPoint, o: Outcome)
    requires Recording(op) && !StartsRegion(op, o) && Save(l.mem, l.disk, op.stage, o).Written?
    requires Guarded(l) && OpState(l.mem, None, op) && OpDurable(l, op)
    ensures OpDurableAfter(OpRecording(l, op, op.stage, o))
  {
  }

  lemma RaisedDurable(l: Local, op: OpPoint, o: Outcome)
    requires Recording(op) && Save(l.mem, l.disk, op.stage, o).Raised?
    requires Guarded(l) && OpState(l.mem, None, op) && OpDurable(l, op)
    ensures OpDurableAfter(OpRecording(l, op, op.stage, o))
  {
  }

  lemma RecordingDurable(l: Local, op: OpPoint, o: Outcome)
    requires Recording(op) && !StartsRegion(op, o)
    requires Guarded(l) && OpState(l.mem, None, op) && OpDurable(l, op)
    ensures OpDurableAfter(OpRecording(l, op, op.stage, o)) && OpRecording(l, op, op.stage, o).damaged == l.damaged
  {
    match Save(l.mem, l.disk, op.stage, o)
    case InProgress(_, _) => SavingDurable(l, op, o);
    case Written(_, _) => WrittenDurable(l, op, o);
    case Raised(_) => RaisedDurable(l, op, o);
  }

  lemma OpStepDurable(l: Local, root: Option<nat>, op: OpPoint, o: Outcome)
    requires Guarded(l) && OpState(l.mem, root, op) && OpDurable(l, op)
    requires OpStep(l, root, op, o).Some? && !StartsRegion(op, o)
    ensures
      var l' := OpStep(l, root, op, o).value;
      Guarded(l') && l'.task.pc.Operating? && OpDurable(l', l'.task.pc.op) && (l'.damaged && !l.damaged ==> op.Activating?)
  {
    if Recording(op) {
      RecordingDurable(l, op, o);
    }
  }

  lemma InitStepDurable(l: Local, root: Option<nat>, init: InitPoint, o: Outcome)
    requires Guarded(l) && InitState(l.mem, root, init) && InitStep(l, root, init, o).Some? && InitDurable(l, init, true)
    requires init.Preparing? && !o.Fails? ==> !l.raised
    ensures
      var l' := InitStep(l, root, init, o).value;
      && Guarded(l') && l'.task.pc.Starting? && InitDurable(l', l'.task.pc.init, true)
      && l'.damaged == l.damaged && l'.raised == l.raised
  {
    if init.RecordingInterrupted? {
      InitRecordingDurable(l, root, init.stage, o);
    }
  }

  lemma InitRecordingDurable(l: Local, root: Option<nat>, stage: SaveStage, o: Outcome)
    requires Guarded(l) && InitDurable(l, RecordingInterrupted(stage), true)
    ensures
      var l' := InitRecording(l, root, stage, o);
      && Guarded(l') && l'.task.pc.Starting? && InitDurable(l', l'.task.pc.init, true)
      && l'.damaged == l.damaged && l'.raised == l.raised
  {
  }

  lemma NestStepDurable(l: Local, nest: NestPoint, o: Outcome)
    requires Guarded(l) && NestState(l.mem, nest) && NestDurable(l, nest)
    ensures
      var l' := NestStep(l, nest, o);
      && Guarded(l')
      && (l'.task.pc.Nesting? ==> NestState(l'.mem, l'.task.pc.nest) && NestDurable(l', l'.task.pc.nest))
      && (l'.task.pc.Done? ==> Between(l'))
  {
  }

  // ----- Actions

  /** Calls that are not nested operations come, go and move on; the job stays. */
  lemma SingleStays(s: Sys, s': Sys)
    requires Single(s) && s'.nested == s.nested && s'.mem.job == s.mem.job && |s.tasks| <= |s'.tasks|
    requires forall t :: 0 <= t < |s.tasks| ==> s'.tasks[t].pc == s.tasks[t].pc || (!s.tasks[t].pc.Nesting? && !s'.tasks[t].pc.Nesting?)
    requires forall t :: |s.tasks| <= t < |s'.tasks| ==> !s'.tasks[t].pc.Nesting?
    ensures Single(s')
  {
  }

  /** Steps that leave the disk, the damage and every driver's and nested call's point alone. */
  lemma OthersDurable(s: Sys, s': Sys)
    requires Safe(s) && Durable(s) && Safe(s') && |s.tasks| <= |s'.tasks|
    requires s'.disk == s.disk && s'.damaged == s.damaged && s'.raised == s.raised
    requires s'.holder == s.holder && s'.nested == s.nested
    requires s.holder.Some? ==> s'.tasks[s.holder.value].pc == s.tasks[s.holder.value].pc
    requires s.nested.Some? ==> s'.tasks[s.nested.value].pc == s.tasks[s.nested.value].pc
    requires s'.mem.job == s.mem.job
    requires s'.mem.state == s.mem.state || s'.mem.state == Stopping || s.holder.None?
    requires s.damaged ==> OnlyExclusive(s'.leases) && s'.mem.state != Ready && s'.mem.state != MigrationRequired
    requires Rides(s') ==> HolderPc(s).Operating? || InNestedBody(s)
    requires forall t :: |s.tasks| <= t < |s'.tasks| ==> !s'.tasks[t].pc.Nesting?
    requires forall t :: 0 <= t < |s.tasks| ==> s'.tasks[t].pc == s.tasks[t].pc || (!s.tasks[t].pc.Nesting? && !s'.tasks[t].pc.Nesting?)
    ensures Durable(s')
  {
    SingleStays(s, s');
  }

  lemma ClaimDurable(s: Sys)
    requires Safe(s) && Durable(s) && ClaimOwner(s).Some? && Safe(ClaimOwner(s).value)
    ensures Durable(ClaimOwner(s).value)
  {
    OthersDurable(s, ClaimOwner(s).value);
  }

  lemma InitializeDurable(s: Sys)
    requires Safe(s) && Durable(s) && Initialize(s).Some? && Safe(Initialize(s).value)
    ensures Durable(Initialize(s).value)
  {
  }

  lemma AdmitDurable(s: Sys, parent: Option<nat>)
    requires Safe(s) && Durable(s) && AdmitLease(s, parent).Some? && Safe(AdmitLease(s, parent).value)
    ensures Durable(AdmitLease(s, parent).value)
  {
    OthersDurable(s, AdmitLease(s, parent).value);
  }

  lemma InspectDurable(s: Sys)
    requires Safe(s) && Durable(s) && InspectLease(s).Some? && Safe(InspectLease(s).value)
    ensures Durable(InspectLease(s).value)
  {
    OthersDurable(s, InspectLease(s).value);
  }

  lemma CloseLeaseDurable(s: Sys, l: nat)
    requires Safe(s) && Durable(s) && CloseLease(s, l).Some? && Safe(CloseLease(s, l).value)
    ensures Durable(CloseLease(s, l).value)
  {
    OthersDurable(s, CloseLease(s, l).value);
  }

  /** A call made where the conditions allow it runs along inside a body that is already covered. */
  lemma RideIsCovered(s: Sys, p: nat, operation: Operation, id: nat)
    requires Safe(s) && Durable(s) && CallNested(s, p, operation, id).Some? && !(s.mem.initializing && !JobRuns(s.mem))
    requires Nested(s, CallOperation(Some(p), operation, id)) && Stacked(s, CallOperation(Some(p), operation, id))
    requires Covered(s, CallOperation(Some(p), operation, id))
    ensures s.damaged && (HolderPc(s).Operating? || InNestedBody(s))
  {
    if s.nested.Some? {
      assert Frame(s.tasks[s.nested.value].pc);
    }
  }

  /**
    A body that runs along begins under damage done before it exactly when its call is covered or
    the last body raised; every record demands recovery then.
   */
  lemma RideCoverage(s: Sys, p: nat, operation: Operation, id: nat)
    requires Safe(s) && Durable(s) && CallNested(s, p, operation, id).Some? && !(s.mem.initializing && !JobRuns(s.mem))
    requires Nested(s, CallOperation(Some(p), operation, id)) && Stacked(s, CallOperation(Some(p), operation, id))
    ensures s.damaged <==> Covered(s, CallOperation(Some(p), operation, id)) || s.raised
    ensures Covered(s, CallOperation(Some(p), operation, id)) || s.raised ==> forall j :: j in s.disk.maybe ==> Recovers(j)
  {
    if Covered(s, CallOperation(Some(p), operation, id)) {
      RideIsCovered(s, p, operation, id);
    }
  }

  lemma CallNestedDurable(s: Sys, p: nat, operation: Operation, id: nat)
    requires Safe(s) && Durable(s) && CallNested(s, p, operation, id).Some? && Safe(CallNested(s, p, operation, id).value)
    requires Nested(s, CallOperation(Some(p), operation, id)) && Stacked(s, CallOperation(Some(p), operation, id))
    requires Covered(s, CallOperation(Some(p), operation, id))
    ensures Durable(CallNested(s, p, operation, id).value)
  {
    var s' := CallNested(s, p, operation, id).value;
    if s.mem.initializing && !JobRuns(s.mem) {
      NestedArrivalDurable(s, s');
    } else {
      RideIsCovered(s, p, operation, id);
      OthersDurable(s, s');
    }
  }

  lemma NestedArrivalDurable(s: Sys, s': Sys)
    requires Safe(s) && Durable(s) && Safe(s') && s.mem.initializing && !JobRuns(s.mem)
    requires CallerCode(HolderPc(s)) && forall t :: 0 <= t < |s.tasks| && Frame(s.tasks[t].pc) ==> InFrameBody(s.tasks[t].pc)
    requires exists operation, id ::
               s' == Spawn(s.(nested := Some(|s.tasks|)), NewTask(NestedOperator, Nesting(Entering(operation, id))))
    ensures Durable(s')
  {
    if s.nested.Some? {
      assert false;
    }
    assert forall t :: 0 <= t < |s.tasks| ==> s'.tasks[t] == s.tasks[t];
  }

  lemma CallDriverDurable(s: Sys, operation: Operation, id: nat)
    requires Safe(s) && Durable(s) && CallDriver(s, operation, id).Some? && Safe(CallDriver(s, operation, id).value)
    ensures Durable(CallDriver(s, operation, id).value)
  {
  }

  /** An accepted `cancel` changes the status of the job and nothing else. */
  predicate Cancels(l: Local, l': Local, id: nat) {
    RuntimeTypes.Cancel(l.mem, id) == Some(l'.mem) && l'.disk == l.disk && l'.damaged == l.damaged && l'.raised == l.raised
  }

  lemma CancelOp(l: Local, l': Local, id: nat, root: Option<nat>, op: OpPoint)
    requires Cancels(l, l', id) && OpState(l.mem, root, op) && OpDurable(l, op)
    ensures OpDurable(l', op)
  {
  }

  lemma CancelInit(l: Local, l': Local, id: nat, init: InitPoint, calm: bool)
    requires Cancels(l, l', id) && InitDurable(l, init, calm)
    ensures InitDurable(l', init, calm)
  {
  }

  lemma CancelNest(l: Local, l': Local, id: nat, nest: NestPoint)
    requires Cancels(l, l', id) && NestState(l.mem, nest) && NestDurable(l, nest)
    ensures NestDurable(l', nest)
  {
  }

  /** `cancel` leaves every call where it is. */
  predicate CancelsSys(s: Sys, s': Sys, id: nat) {
    && RuntimeTypes.Cancel(s.mem, id) == Some(s'.mem) && |s'.tasks| == |s.tasks|
    && (forall t :: 0 <= t < |s.tasks| ==> s'.tasks[t].pc == s.tasks[t].pc)
    && s' == s.(mem := s'.mem, tasks := s'.tasks)
  }

  lemma CancelHolder(s: Sys, s': Sys, id: nat)
    requires Safe(s) && HolderDurable(s) && CancelsSys(s, s', id) && HolderOk(s')
    ensures HolderDurable(s')
  {
    if s.holder.Some? {
      var l, l' := View(s, s.holder.value), View(s', s.holder.value);
      match l.task.pc {
        case Operating(root, op) => CancelOp(l, l', id, root, op);
        case Starting(_, init) => CancelInit(l, l', id, init, s.nested.None?);
      }
    }
  }

  lemma CancelDurable(s: Sys, id: nat)
    requires Safe(s) && Durable(s) && CancelJob(s, id).Some? && Safe(CancelJob(s, id).value)
    ensures Durable(CancelJob(s, id).value)
  {
    CancelShape(s, id);
    CancelKeepsDurable(s, CancelJob(s, id).value, id);
  }

  lemma CancelShape(s: Sys, id: nat)
    requires CancelJob(s, id).Some?
    ensures CancelsSys(s, CancelJob(s, id).value, id)
  {
  }

  lemma CancelKeepsDurable(s: Sys, s': Sys, id: nat)
    requires Safe(s) && Durable(s) && CancelsSys(s, s', id) && Safe(s')
    ensures Durable(s')
  {
    CancelHolder(s, s', id);
    if s.nested.Some? {
      CancelNest(View(s, s.nested.value), View(s', s.nested.value), id, s.tasks[s.nested.value].pc.nest);
    }
    assert Rides(s') ==> Rides(s);
  }

  lemma CallWithoutIdDurable(s: Sys, operation: Operation)
    requires Safe(s) && Durable(s) && CallWithoutId(s, operation).Some? && Safe(CallWithoutId(s, operation).value)
    ensures Durable(CallWithoutId(s, operation).value)
  {
    OthersDurable(s, CallWithoutId(s, operation).value);
  }

  lemma StopDurable(s: Sys)
    requires Safe(s) && Durable(s) && Stop(s).Some? && Safe(Stop(s).value)
    ensures Durable(Stop(s).value)
  {
    OthersDurable(s, Stop(s).value);
  }

  lemma WakeDurable(s: Sys, t: nat)
    requires Safe(s) && Durable(s) && WakeStopper(s, t).Some? && Safe(WakeStopper(s, t).value)
    ensures Durable(WakeStopper(s, t).value)
  {
    OthersDurable(s, WakeStopper(s, t).value);
  }

  lemma GiveUpDurable(s: Sys, t: nat)
    requires Safe(s) && Durable(s) && GiveUpStop(s, t).Some? && Safe(GiveUpStop(s, t).value)
    ensures Durable(GiveUpStop(s, t).value)
  {
    OthersDurable(s, GiveUpStop(s, t).value);
  }

  lemma RebootDurable(s: Sys, survivor: Journal)
    requires Safe(s) && Durable(s) && Reboot(s, survivor).Some? && Safe(Reboot(s, survivor).value)
    ensures Durable(Reboot(s, survivor).value)
  {
  }

  lemma SealedIsExclusive(s: Sys)
    requires Safe(s) && Sealed(HolderPc(s))
    ensures OnlyExclusive(s.leases)
  {
    var root := RootOf(HolderPc(s));
    forall l | 0 <= l < |s.leases| && s.leases[l].active
      ensures s.leases[l].exclusive
    {
      assert Under(s.leases, l, root);
      assert LeaseOk(s.leases, root.value);
      DescendantsExclusive(s.leases, l, root.value);
    }
  }

  lemma StartingRegionDurable(s: Sys, t: nat, job: Option<Job>, before: RuntimeState)
    requires Safe(s) && Durable(s) && s.holder == Some(t) && s.tasks[t].pc == Operating(None, RecordingRunning(Sync(job), before))
    requires Safe(MoveRunning(s, t, job))
    ensures Durable(MoveRunning(s, t, job))
  {
  }

  /** The steps that open or close the region, or give `busy` back. */
  lemma RegionDurable(s: Sys, t: nat, root: Option<nat>, op: OpPoint, o: Outcome)
    requires Safe(s) && Durable(s) && s.holder == Some(t) && s.tasks[t].pc == Operating(root, op)
    requires op.Closing? || op.Leaving? || StartsRegion(op, o)
    requires MoveOperator(s, t, root, op, o).Some? && Safe(MoveOperator(s, t, root, op, o).value)
    ensures Durable(MoveOperator(s, t, root, op, o).value)
  {
    if StartsRegion(op, o) {
      StartingRegionDurable(s, t, op.stage.job, op.before);
    }
  }

  /** A driver without nested operations moves on. */
  lemma HolderMoveDurable(s: Sys, t: nat, l: Local)
    requires Safe(s) && Durable(s) && s.holder == Some(t) && s.nested.None? && Safe(Put(s, t, l))
    requires Guarded(l) && (l.damaged ==> OnlyExclusive(s.leases))
    requires if s.tasks[t].pc.Operating? then l.task.pc.Operating? && OpDurable(l, l.task.pc.op)
             else l.task.pc.Starting? && InitDurable(l, l.task.pc.init, true)
    ensures Durable(Put(s, t, l))
  {
    var s' := Put(s, t, l);
    assert |s'.tasks| == |s.tasks| && forall u :: 0 <= u < |s.tasks| && u != t ==> s'.tasks[u] == s.tasks[u];
    assert Rides(s') ==> Rides(s);
  }

  lemma NestedIsFrame(s: Sys)
    requires Single(s)
    ensures s.nested.Some? ==> Frame(s.tasks[s.nested.value].pc)
  {
  }

  lemma NothingNested(s: Sys, t: nat)
    requires Safe(s) && Durable(s) && s.holder == Some(t) && (CallerCode(s.tasks[t].pc) ==> s.tasks[t].pc.Operating? || NoFrames(s))
    ensures s.nested.None?
  {
    NestedIsFrame(s);
  }

  lemma OperatorDurable(s: Sys, t: nat, root: Option<nat>, op: OpPoint, o: Outcome)
    requires Safe(s) && Durable(s) && s.holder == Some(t) && s.tasks[t].pc == Operating(root, op)
    requires MoveOperator(s, t, root, op, o).Some? && Safe(MoveOperator(s, t, root, op, o).value)
    ensures Durable(MoveOperator(s, t, root, op, o).value)
  {
    if op.Closing? || op.Leaving? || StartsRegion(op, o) {
      RegionDurable(s, t, root, op, o);
    } else {
      NothingNested(s, t);
      if op.Activating? {
        SealedIsExclusive(s);
      }
      OpStepDurable(View(s, t), root, op, o);
      HolderMoveDurable(s, t, OpStep(View(s, t), root, op, o).value);
    }
  }

  lemma InitializerDurable(s: Sys, t: nat, root: Option<nat>, init: InitPoint, o: Outcome)
    requires Safe(s) && Durable(s) && s.holder == Some(t) && s.tasks[t].pc == Starting(root, init)
    requires MoveInitializer(s, t, root, init, o).Some? && Safe(MoveInitializer(s, t, root, init, o).value)
    requires init.Preparing? ==> NoFrames(s) && (o.Fails? || !s.raised)
    ensures Durable(MoveInitializer(s, t, root, init, o).value)
  {
    if init.ClosingInit? || init.LeavingInit? {
      InitEndDurable(s, t, root, init, o);
    } else {
      NothingNested(s, t);
      InitStepDurable(View(s, t), root, init, o);
      HolderMoveDurable(s, t, InitStep(View(s, t), root, init, o).value);
    }
  }

  lemma InitEndDurable(s: Sys, t: nat, root: Option<nat>, init: InitPoint, o: Outcome)
    requires Safe(s) && Durable(s) && s.holder == Some(t) && s.tasks[t].pc == Starting(root, init)
    requires MoveInitializer(s, t, root, init, o).Some? && Safe(MoveInitializer(s, t, root, init, o).value)
    requires init.ClosingInit? || init.LeavingInit?
    ensures Durable(MoveInitializer(s, t, root, init, o).value)
  {
  }

  lemma NestedMoveSingle(s: Sys, t: nat, nest: NestPoint, o: Outcome)
    requires Single(s) && s.nested == Some(t) && s.tasks[t].pc == Nesting(nest)
    requires
      var pc := NestStep(View(s, t), nest, o).task.pc;
      pc.Done? || (pc.Nesting? && NestState(NestStep(View(s, t), nest, o).mem, pc.nest))
    ensures Single(MoveNested(s, t, nest, o))
  {
    var s' := MoveNested(s, t, nest, o);
    assert |s'.tasks| == |s.tasks| && forall u :: 0 <= u < |s.tasks| && u != t ==> s'.tasks[u] == s.tasks[u];
  }

  /** A nested operation that moved on, or is over, without looking at which step it took. */
  lemma NestedMoved(s: Sys, s': Sys, t: nat, l: Local)
    requires Safe(s) && Durable(s) && Safe(s') && Single(s') && s.nested == Some(t) && HolderPc(s).Starting? && HolderPc(s).init.Preparing?
    requires s'.leases == s.leases && s'.holder == s.holder && |s'.tasks| == |s.tasks| && View(s', t) == l
    requires forall u :: 0 <= u < |s.tasks| && u != t ==> s'.tasks[u] == s.tasks[u]
    requires Guarded(l) && OnlyExclusive(s.leases) && !Rides(s')
    requires if s'.nested.None? then Between(l) else s'.nested == Some(t) && NestDurable(l, l.task.pc.nest)
    ensures Durable(s')
  {
  }

  lemma NestedHasNoRides(s: Sys, t: nat, nest: NestPoint)
    requires Safe(s) && Durable(s) && s.nested == Some(t) && s.tasks[t].pc == Nesting(nest) && (nest.NestedBody? ==> !Rides(s))
    ensures !Rides(s) && HolderPc(s).Starting? && HolderPc(s).init.Preparing? && OnlyExclusive(s.leases)
  {
    assert Frame(s.tasks[t].pc);
    SealedIsExclusive(s);
  }

  lemma NestedMoveDurable(s: Sys, t: nat, nest: NestPoint, o: Outcome)
    requires Safe(s) && Durable(s) && s.nested == Some(t) && s.tasks[t].pc == Nesting(nest)
    requires Safe(MoveNested(s, t, nest, o)) && (nest.NestedBody? ==> !Rides(s))
    ensures Durable(MoveNested(s, t, nest, o))
  {
    NestedHasNoRides(s, t, nest);
    var l := NestedMoveFacts(s, t, nest, o);
    NestedMoved(s, MoveNested(s, t, nest, o), t, l);
  }

  lemma NestedMoveFacts(s: Sys, t: nat, nest: NestPoint, o: Outcome) returns (l: Local)
    requires Single(s) && GuardedSys(s) && NestedDurable(s) && !Rides(s) && s.nested == Some(t) && s.tasks[t].pc == Nesting(nest)
    ensures
      var s' := MoveNested(s, t, nest, o);
      && Single(s') && Guarded(l) && (if s'.nested.None? then Between(l) else s'.nested == Some(t) && l.task.pc.Nesting? && NestDurable(l, l.task.pc.nest))
      && s'.leases == s.leases && s'.holder == s.holder && |s'.tasks| == |s.tasks| && View(s', t) == l && !Rides(s')
      && (forall u :: 0 <= u < |s.tasks| && u != t ==> s'.tasks[u] == s.tasks[u])
  {
    l := NestStep(View(s, t), nest, o);
    NestStepDurable(View(s, t), nest, o);
    NestedMoveSingle(s, t, nest, o);
    NestedMoveShape(s, t, nest, o);
  }

  lemma NestedMoveShape(s: Sys, t: nat, nest: NestPoint, o: Outcome)
    requires t < |s.tasks| && s.nested == Some(t) && !Rides(s)
    ensures
      var l, s' := NestStep(View(s, t), nest, o), MoveNested(s, t, nest, o);
      && s'.leases == s.leases && s'.holder == s.holder && |s'.tasks| == |s.tasks| && View(s', t) == l
      && (forall u :: 0 <= u < |s.tasks| && u != t ==> s'.tasks[u] == s.tasks[u])
      && s'.nested == (if l.task.pc.Done? then None else Some(t)) && (l.task.pc.Riding? || !Rides(s'))
  {
  }

  lemma MoveDurable(s: Sys, t: nat, o: Outcome)
    requires Safe(s) && Durable(s) && Move(s, t, o).Some? && Safe(Move(s, t, o).value)
    requires s.tasks[t].pc.Starting? && s.tasks[t].pc.init.Preparing? ==> NoFrames(s) && (o.Fails? || !s.raised)
    requires s.tasks[t].pc == Nesting(NestedBody) ==> !Rides(s)
    ensures Durable(Move(s, t, o).value)
  {
    match s.tasks[t].pc
    case Operating(root, op) => OperatorDurable(s, t, root, op, o);
    case Starting(root, init) => InitializerDurable(s, t, root, init, o);
    case Nesting(nest) => NestedMoveDurable(s, t, nest, o);
    case Riding => RideEndsDurable(s, t, !o.Fails?);
  }

  lemma RideEndsDurable(s: Sys, t: nat, returned: bool)
    requires Safe(s) && Durable(s) && t < |s.tasks| && s.tasks[t].pc.Riding? && Safe(At(s, t, Done(returned)))
    ensures Durable(At(s, t, Done(returned)))
  {
    OthersDurable(s, At(s, t, Done(returned)));
  }

  predicate IsCall(a: Action) {
    a.DoClaim? || a.DoInitialize? || a.DoAdmit? || a.DoInspect? || a.CallOperation? || a.CallUnnamed? || a.DoStop?
  }

  lemma CallDurable(s: Sys, a: Action)
    requires Safe(s) && Durable(s) && Enabled(s, a) && Disciplined(s, a) && Safe(Next(s, a).value) && IsCall(a)
    ensures Durable(Next(s, a).value)
  {
    match a
    case DoClaim => ClaimDurable(s);
    case DoInitialize => InitializeDurable(s);
    case DoAdmit(parent) => AdmitDurable(s, parent);
    case DoInspect => InspectDurable(s);
    case CallOperation(parent, operation, id) =>
      if parent.Some? { CallNestedDurable(s, parent.value, operation, id); } else { CallDriverDurable(s, operation, id); }
    case CallUnnamed(operation) => CallWithoutIdDurable(s, operation);
    case DoStop => StopDurable(s);
  }

  lemma EventDurable(s: Sys, a: Action)
    requires Safe(s) && Durable(s) && Enabled(s, a) && Disciplined(s, a) && Safe(Next(s, a).value) && !IsCall(a)
    ensures Durable(Next(s, a).value)
  {
    match a
    case EndLease(l) => CloseLeaseDurable(s, l);
    case DoCancel(id) => CancelDurable(s, id);
    case Wake(t) => WakeDurable(s, t);
    case StopTimeout(t) => GiveUpDurable(s, t);
    case Advance(t, o) => MoveDurable(s, t, o);
    case Crash(survivor) => RebootDurable(s, survivor);
  }

  /** Every disciplined step keeps safety and the journal's guarantee. */
  lemma StepDurable(s: Sys, a: Action)
    requires Safe(s) && Durable(s) && Enabled(s, a) && Disciplined(s, a)
    ensures Safe(Next(s, a).value) && Durable(Next(s, a).value)
  {
    StepSafe(s, a);
    if IsCall(a) {
      CallDurable(s, a);
    } else {
      EventDurable(s, a);
    }
  }
}
