/**
  Every well-nested step keeps `Safe`. One lemma per kind of action.
 */
module RuntimeSafety {
  import opened Wrappers
  import opened RuntimeTypes
  import opened RuntimeProtocol
  import opened RuntimeInvariant

  // ----- Leases

  /** Leases that stay or end keep their place under a root. */
  lemma UnderStable(before: seq<Lease>, after: seq<Lease>, root: Option<nat>)
    requires |before| <= |after|
    requires forall i :: 0 <= i < |before| ==> after[i].parent == before[i].parent
    requires forall i :: 0 <= i < |before| && after[i].active ==> before[i].active
    requires AllUnder(before, root)
    ensures forall l :: 0 <= l < |before| && after[l].active ==> Under(after, l, root)
  {
    forall l | 0 <= l < |before| && after[l].active
      ensures Under(after, l, root)
    {
      assert Under(before, l, root);
      DescendsStable(before, after, l, root.value);
    }
  }

  lemma ForestOpen(leases: seq<Lease>, lease: Lease)
    requires Forest(leases)
    requires lease.parent.None? ==> lease.exclusive == lease.kind.Root?
    requires lease.parent.Some? ==>
               && lease.parent.value < |leases| && lease.kind.Ordinary?
               && lease.exclusive == leases[lease.parent.value].exclusive
    ensures Forest(leases + [lease])
  {
    forall l | 0 <= l < |leases + [lease]|
      ensures LeaseOk(leases + [lease], l)
    {
      if l < |leases| {
        assert LeaseOk(leases, l);
      }
    }
  }

  /** A counted lease opens, in a sealed region only under a live parent. */
  lemma LeaseOpens(leases: seq<Lease>, lease: Lease, pc: Pc)
    requires Leases(leases, pc) && !lease.kind.Root? && lease.active
    requires lease.parent.None? ==> !lease.exclusive && !Sealed(pc)
    requires lease.parent.Some? ==>
               && lease.parent.value < |leases| && leases[lease.parent.value].active && lease.kind.Ordinary?
               && lease.exclusive == leases[lease.parent.value].exclusive
    ensures Leases(leases + [lease], pc)
  {
    ForestOpen(leases, lease);
    if Sealed(pc) {
      var root := RootOf(pc);
      UnderStable(leases, leases + [lease], root);
      assert Under(leases + [lease], lease.parent.value, root);
    }
  }

  /** A driver opens its root while nothing is live. */
  lemma RootOpens(leases: seq<Lease>, pc: Pc, pc': Pc)
    requires Leases(leases, pc) && RootOf(pc).None? && LiveCount(leases) == 0
    requires RootOf(pc') == Some(|leases|)
    ensures Leases(leases + [RootLease], pc')
    ensures LiveCount(leases + [RootLease]) == 0
  {
    ForestOpen(leases, RootLease);
    LiveCountZero(leases);
    LiveCountAppend(leases, RootLease);
  }

  /** A lease ends; if it is the driver's root, the driver moves on without one. */
  lemma LeaseCloses(leases: seq<Lease>, l: nat, pc: Pc, pc': Pc)
    requires Leases(leases, pc) && l < |leases| && leases[l].active
    requires if leases[l].kind.Root?
             then RootOf(pc').None? && forall i :: 0 <= i < |leases| && leases[i].active ==> i == l
             else pc' == pc
    ensures Leases(leases[l := leases[l].(active := false)], pc')
    ensures LiveCount(leases[l := leases[l].(active := false)])
         == LiveCount(leases) - (if leases[l].kind.Root? then 0 else 1)
  {
    var closed := leases[l := leases[l].(active := false)];
    LiveCountUpdate(leases, l);
    forall i | 0 <= i < |closed|
      ensures LeaseOk(closed, i)
    {
      assert LeaseOk(leases, i);
    }
    if !leases[l].kind.Root? && Sealed(pc) {
      UnderStable(leases, closed, RootOf(pc));
    }
  }

  lemma SealedWhenEmpty(leases: seq<Lease>, pc: Pc, pc': Pc)
    requires Leases(leases, pc) && LiveCount(leases) == 0 && RootOf(pc).None? && RootOf(pc').None?
    ensures Leases(leases, pc')
  {
    LiveCountZero(leases);
  }

  // ----- Tasks

  predicate SameHistoryVars(s: Sys, s': Sys) {
    s'.holder == s.holder && s'.mem.initializing == s.mem.initializing
  }

  predicate SameClass(pc: Pc, pc': Pc) {
    (pc.Operating? && pc'.Operating?) || (pc.Starting? && pc'.Starting?)
  }

  /** The driver moves on; it leaves caller code only when no nested call is left. */
  lemma HolderMoves(s: Sys, s': Sys, t: nat)
    requires Drivers(s) && s.holder == Some(t)
    requires |s'.tasks| == |s.tasks|
    requires forall u :: 0 <= u < |s.tasks| && u != t ==> s'.tasks[u].pc == s.tasks[u].pc
    requires SameHistoryVars(s, s') && SameClass(s.tasks[t].pc, s'.tasks[t].pc)
    requires CallerCode(s.tasks[t].pc) ==> forall u :: 0 <= u < |s.tasks| ==> !Frame(s.tasks[u].pc)
    ensures Drivers(s')
  {
  }

  lemma HolderLeaves(s: Sys, s': Sys, t: nat)
    requires Drivers(s) && s.holder == Some(t) && !CallerCode(s.tasks[t].pc)
    requires |s'.tasks| == |s.tasks|
    requires forall u :: 0 <= u < |s.tasks| && u != t ==> s'.tasks[u].pc == s.tasks[u].pc
    requires s'.holder == None && !s'.mem.initializing && s'.tasks[t].pc.Done?
    ensures Drivers(s')
  {
  }

  /** A call takes `busy`. */
  lemma HolderArrives(s: Sys, s': Sys, pc: Pc)
    requires Drivers(s) && s.holder.None?
    requires |s'.tasks| == |s.tasks| + 1 && s'.tasks[|s.tasks|].pc == pc && Driver(pc)
    requires forall u :: 0 <= u < |s.tasks| ==> s'.tasks[u].pc == s.tasks[u].pc
    requires s'.holder == Some(|s.tasks|) && s'.mem.initializing == pc.Starting?
    ensures Drivers(s') && HolderPc(s') == pc
  {
  }

  /** Some other task moves, or appears at the end, without becoming driver or nested. */
  lemma OthersMove(s: Sys, s': Sys)
    requires Drivers(s) && |s.tasks| <= |s'.tasks|
    requires forall u :: 0 <= u < |s.tasks| && (Driver(s.tasks[u].pc) || s.tasks[u].pc.Nesting?) ==> s'.tasks[u].pc == s.tasks[u].pc
    requires forall u :: 0 <= u < |s.tasks| ==> s'.tasks[u].pc == s.tasks[u].pc || (!Driver(s'.tasks[u].pc) && !Frame(s'.tasks[u].pc))
    requires forall u :: |s.tasks| <= u < |s'.tasks| ==>
               !Driver(s'.tasks[u].pc) && !s'.tasks[u].pc.Nesting? && (Frame(s'.tasks[u].pc) ==> CallerCode(HolderPc(s)))
    requires SameHistoryVars(s, s')
    ensures Drivers(s') && HolderPc(s') == HolderPc(s)
  {
  }

  /** A nested operation moves on, or ends. */
  lemma NestedMoves(s: Sys, s': Sys, t: nat)
    requires Drivers(s) && t < |s.tasks| && s.tasks[t].pc.Nesting?
    requires |s'.tasks| == |s.tasks|
    requires forall u :: 0 <= u < |s.tasks| && u != t ==> s'.tasks[u].pc == s.tasks[u].pc
    requires s'.holder == s.holder && s'.mem.initializing == s.mem.initializing
    requires s'.tasks[t].pc.Nesting? || s'.tasks[t].pc.Done?
    ensures Drivers(s') && HolderPc(s') == HolderPc(s)
  {
  }

  lemma NestedArrives(s: Sys, s': Sys)
    requires Drivers(s) && HolderPc(s).Starting? && HolderPc(s).init.Preparing?
    requires |s'.tasks| == |s.tasks| + 1 && s'.tasks[|s.tasks|].pc.Nesting?
    requires forall u :: 0 <= u < |s.tasks| ==> s'.tasks[u].pc == s.tasks[u].pc
    requires s'.holder == s.holder && s'.mem.initializing == s.mem.initializing
    ensures Drivers(s') && HolderPc(s') == HolderPc(s)
  {
  }

  // ----- Actions that do not belong to a task

  lemma ClaimSafe(s: Sys)
    requires Safe(s) && ClaimOwner(s).Some?
    ensures Safe(ClaimOwner(s).value)
  {
    OthersMove(s, ClaimOwner(s).value);
  }

  lemma InitializeSafe(s: Sys)
    requires Safe(s) && Initialize(s).Some?
    ensures Safe(Initialize(s).value)
  {
    var s' := Initialize(s).value;
    var pc := Starting(Some(|s.leases|), Locking);
    HolderArrives(s, s', pc);
    RootOpens(s.leases, HolderPc(s), pc);
    assert s'.leases == s.leases + [RootLease];
  }

  lemma AdmitSafe(s: Sys, parent: Option<nat>)
    requires Safe(s) && AdmitLease(s, parent).Some?
    ensures Safe(AdmitLease(s, parent).value)
  {
    var s' := AdmitLease(s, parent).value;
    var lease := s'.leases[|s.leases|];
    OthersMove(s, s');
    LiveCountZero(s.leases);
    LiveCountAppend(s.leases, lease);
    LeaseOpens(s.leases, lease, HolderPc(s));
  }

  lemma InspectSafe(s: Sys)
    requires Safe(s) && InspectLease(s).Some?
    ensures Safe(InspectLease(s).value)
  {
    var s' := InspectLease(s).value;
    var lease := s'.leases[|s.leases|];
    OthersMove(s, s');
    LiveCountAppend(s.leases, lease);
    LeaseOpens(s.leases, lease, HolderPc(s));
  }

  lemma CloseLeaseSafe(s: Sys, l: nat)
    requires Safe(s) && CloseLease(s, l).Some?
    ensures Safe(CloseLease(s, l).value)
  {
    var s' := CloseLease(s, l).value;
    OthersMove(s, s');
    LeaseCloses(s.leases, l, HolderPc(s), HolderPc(s));
  }

  lemma CallNestedSafe(s: Sys, p: nat, operation: Operation, id: nat)
    requires Safe(s) && CallNested(s, p, operation, id).Some?
    requires CallerCode(HolderPc(s))
    ensures Safe(CallNested(s, p, operation, id).value)
  {
    var s' := CallNested(s, p, operation, id).value;
    assert forall t :: 0 <= t < |s.tasks| ==> s'.tasks[t] == s.tasks[t];
    if s'.tasks[|s.tasks|].pc.Riding? {
      OthersMove(s, s');
    } else {
      NestedArrives(s, s');
    }
  }

  lemma CallDriverSafe(s: Sys, operation: Operation, id: nat)
    requires Safe(s) && CallDriver(s, operation, id).Some?
    ensures Safe(CallDriver(s, operation, id).value)
  {
    var s' := CallDriver(s, operation, id).value;
    HolderArrives(s, s', s'.tasks[|s.tasks|].pc);
  }

  lemma CallWithoutIdSafe(s: Sys, operation: Operation)
    requires Safe(s) && CallWithoutId(s, operation).Some?
    ensures Safe(CallWithoutId(s, operation).value)
  {
    OthersMove(s, CallWithoutId(s, operation).value);
  }

  lemma CancelSafe(s: Sys, id: nat)
    requires Safe(s) && CancelJob(s, id).Some?
    ensures Safe(CancelJob(s, id).value)
  {
    var s' := CancelJob(s, id).value;
    assert forall t :: 0 <= t < |s.tasks| ==> s'.tasks[t].pc == s.tasks[t].pc;
    OthersMove(s, s');
  }

  /** One more call that neither drives nor is nested. */
  lemma OneArrives(s: Sys, s': Sys, task: Task)
    requires Drivers(s) && s'.tasks == s.tasks + [task] && !Driver(task.pc) && !Frame(task.pc) && SameHistoryVars(s, s')
    ensures Drivers(s') && HolderPc(s') == HolderPc(s)
  {
    OthersMove(s, s');
  }

  lemma StopSafe(s: Sys)
    requires Safe(s) && Stop(s).Some?
    ensures Safe(Stop(s).value)
  {
    var s' := Stop(s).value;
    OneArrives(s, s', s'.tasks[|s.tasks|]);
  }

  lemma WakeSafe(s: Sys, t: nat)
    requires Safe(s) && WakeStopper(s, t).Some?
    ensures Safe(WakeStopper(s, t).value)
  {
    OthersMove(s, WakeStopper(s, t).value);
  }

  lemma GiveUpSafe(s: Sys, t: nat)
    requires Safe(s) && GiveUpStop(s, t).Some?
    ensures Safe(GiveUpStop(s, t).value)
  {
    OthersMove(s, GiveUpStop(s, t).value);
  }

  lemma RebootSafe(s: Sys, survivor: Journal)
    requires Safe(s) && Reboot(s, survivor).Some?
    ensures Safe(Reboot(s, survivor).value)
  {
    var s' := Reboot(s, survivor).value;
    LiveCountZero(s'.leases);
    forall l | 0 <= l < |s'.leases|
      ensures LeaseOk(s'.leases, l)
    {
      assert LeaseOk(s.leases, l);
    }
  }

  // ----- The driver moves

  /** A step of a call leaves ownership, the busy flags and the lease counter alone. */
  predicate SameOwnership(m: Memory, m': Memory) {
    && m'.owned == m.owned && m'.busy == m.busy && m'.active == m.active && m'.initializing == m.initializing
    && (m'.state == Stopped <==> m.state == Stopped)
  }

  /** The operation's own facts after a step that touches no lease. */
  predicate OpCarries(l: Local, root: Option<nat>, op: OpPoint, l': Local) {
    && l'.task.pc.Operating? && l'.task.pc.root == root
    && SameOwnership(l.mem, l'.mem)
    && OpState(l'.mem, root, l'.task.pc.op)
    && (SealedPoint(l'.task.pc.op) ==> SealedPoint(op) || (l.mem.active == 0 && root.None?))
  }

  lemma SavingKeeps(l: Local, op: OpPoint, o: Outcome)
    requires Recording(op) && OpState(l.mem, None, op) && l.mem.state != Stopped && Save(l.mem, l.disk, op.stage, o).InProgress?
    ensures OpCarries(l, None, op, OpRecording(l, op, op.stage, o))
  {
  }

  lemma WrittenKeeps(l: Local, op: OpPoint, o: Outcome)
    requires Recording(op) && OpState(l.mem, None, op) && l.mem.state != Stopped && Save(l.mem, l.disk, op.stage, o).Written?
    requires !StartsRegion(op, o)
    ensures OpCarries(l, None, op, OpRecording(l, op, op.stage, o))
  {
  }

  lemma RaisedKeeps(l: Local, op: OpPoint, o: Outcome)
    requires Recording(op) && OpState(l.mem, None, op) && l.mem.state != Stopped && Save(l.mem, l.disk, op.stage, o).Raised?
    ensures OpCarries(l, None, op, OpRecording(l, op, op.stage, o))
  {
  }

  lemma RecordingKeeps(l: Local, op: OpPoint, o: Outcome)
    requires Recording(op) && OpState(l.mem, None, op) && l.mem.state != Stopped && !StartsRegion(op, o)
    ensures OpCarries(l, None, op, OpRecording(l, op, op.stage, o))
  {
    match Save(l.mem, l.disk, op.stage, o)
    case InProgress(_, _) => SavingKeeps(l, op, o);
    case Written(_, _) => WrittenKeeps(l, op, o);
    case Raised(_) => RaisedKeeps(l, op, o);
  }

  lemma ProceedingKeeps(l: Local, before: RuntimeState, o: Outcome)
    requires OpState(l.mem, None, Draining(before)) && l.mem.state != Stopped && Drain(l.mem).Proceed?
    ensures OpDraining(l, before, o).Some? && OpCarries(l, None, Draining(before), OpDraining(l, before, o).value)
  {
  }

  lemma RefusedKeeps(l: Local, before: RuntimeState)
    requires OpState(l.mem, None, Draining(before)) && l.mem.state != Stopped
    ensures OpCarries(l, None, Draining(before), OpAt(l, None, Aborting(before)))
  {
  }

  lemma DrainingKeeps(l: Local, before: RuntimeState, o: Outcome)
    requires OpState(l.mem, None, Draining(before)) && l.mem.state != Stopped && OpDraining(l, before, o).Some?
    ensures OpCarries(l, None, Draining(before), OpDraining(l, before, o).value)
  {
    if Drain(l.mem).Proceed? {
      ProceedingKeeps(l, before, o);
    } else {
      RefusedKeeps(l, before);
    }
  }

  lemma InsideKeeps(l: Local, root: Option<nat>, op: OpPoint, o: Outcome)
    requires op.Activating? || op.Body? || op.Checking?
    requires OpState(l.mem, root, op) && l.mem.state != Stopped && OpStep(l, root, op, o).Some?
    ensures OpCarries(l, root, op, OpStep(l, root, op, o).value)
  {
  }

  /** A finished job leaves the state and the ownership alone. */
  lemma FinishKeeps(l: Local, status: JobStatus, op: OpPoint, next: OpPoint)
    requires l.mem.job.Some? && l.mem.state != Stopped && (SealedPoint(next) ==> SealedPoint(op))
    requires OpState(FinishJob(l.mem, status), None, next)
    ensures OpCarries(l, None, op, OpFinish(l, status, next))
  {
  }

  lemma FinishingKeeps(l: Local, root: Option<nat>, op: OpPoint, o: Outcome)
    requires op.FinishingSucceeded? || op.FinishingFailed? || op.FinishingCancelled?
    requires OpState(l.mem, root, op) && l.mem.state != Stopped
    ensures OpStep(l, root, op, o).Some? && OpCarries(l, root, op, OpStep(l, root, op, o).value)
  {
    match op
    case FinishingSucceeded => FinishKeeps(l, Succeeded, op, RecordingSucceeded(Snapshot));
    case FinishingFailed => FinishKeeps(l, Failed, op, RecordingFailed(Snapshot));
    case FinishingCancelled(before) => FinishKeeps(l, Cancelled, op, RecordingCancelled(Snapshot, before));
  }

  lemma EndingKeeps(l: Local, root: Option<nat>, op: OpPoint, o: Outcome)
    requires op.Failing? || op.Aborting?
    requires OpState(l.mem, root, op) && l.mem.state != Stopped
    ensures OpStep(l, root, op, o).Some? && OpCarries(l, root, op, OpStep(l, root, op, o).value)
  {
  }

  lemma OpStepKeeps(l: Local, root: Option<nat>, op: OpPoint, o: Outcome)
    requires OpState(l.mem, root, op) && l.mem.state != Stopped && OpStep(l, root, op, o).Some? && !StartsRegion(op, o)
    ensures OpCarries(l, root, op, OpStep(l, root, op, o).value)
  {
    if Recording(op) {
      RecordingKeeps(l, op, o);
    } else if op.Draining? {
      DrainingKeeps(l, op.before, o);
    } else if op.Activating? || op.Body? || op.Checking? {
      InsideKeeps(l, root, op, o);
    } else if op.Failing? || op.Aborting? {
      EndingKeeps(l, root, op, o);
    } else {
      FinishingKeeps(l, root, op, o);
    }
  }

  /** A move of the operation that touches no lease. */
  lemma OperatorMoves(s: Sys, t: nat, l: Local)
    requires Safe(s) && s.holder == Some(t) && s.tasks[t].pc.Operating?
    requires OpCarries(View(s, t), s.tasks[t].pc.root, s.tasks[t].pc.op, l)
    requires CallerCode(s.tasks[t].pc) ==> forall u :: 0 <= u < |s.tasks| ==> !Frame(s.tasks[u].pc)
    ensures Safe(Put(s, t, l))
  {
    var s' := Put(s, t, l);
    HolderMoves(s, s', t);
    if Sealed(s'.tasks[t].pc) && !Sealed(s.tasks[t].pc) {
      SealedWhenEmpty(s.leases, HolderPc(s), HolderPc(s'));
    }
  }

  lemma RunningSafe(s: Sys, t: nat, job: Option<Job>, before: RuntimeState)
    requires Safe(s) && s.holder == Some(t) && s.tasks[t].pc == Operating(None, RecordingRunning(Sync(job), before))
    ensures Safe(MoveRunning(s, t, job))
  {
    var s' := MoveRunning(s, t, job);
    HolderMoves(s, s', t);
    assert AllUnder(s.leases, None);
    LiveCountZero(s.leases);
    RootOpens(s.leases, HolderPc(s), HolderPc(s'));
  }

  lemma ClosingSafe(s: Sys, t: nat, root: Option<nat>, ok: bool)
    requires Safe(s) && s.holder == Some(t) && s.tasks[t].pc == Operating(root, Closing(ok)) && OnlyRoot(s, root)
    requires MoveClosing(s, t, root, ok).Some?
    ensures Safe(MoveClosing(s, t, root, ok).value)
  {
    var s' := MoveClosing(s, t, root, ok).value;
    HolderMoves(s, s', t);
    LeaseCloses(s.leases, root.value, HolderPc(s), HolderPc(s'));
  }

  lemma LeavingSafe(s: Sys, t: nat, returned: bool)
    requires Safe(s) && s.holder == Some(t) && s.tasks[t].pc == Operating(None, Leaving(returned))
    ensures Safe(MoveLeaving(s, t, returned))
  {
    HolderLeaves(s, MoveLeaving(s, t, returned), t);
  }

  lemma OperatorSafe(s: Sys, t: nat, root: Option<nat>, op: OpPoint, o: Outcome)
    requires Safe(s) && s.holder == Some(t) && s.tasks[t].pc == Operating(root, op)
    requires (op.Body? ==> NoFrames(s)) && (op.Closing? ==> OnlyRoot(s, root))
    requires MoveOperator(s, t, root, op, o).Some?
    ensures Safe(MoveOperator(s, t, root, op, o).value)
  {
    if op.Closing? {
      ClosingSafe(s, t, root, op.ok);
    } else if op.Leaving? {
      LeavingSafe(s, t, op.returned);
    } else if StartsRegion(op, o) {
      RunningSafe(s, t, op.stage.job, op.before);
    } else {
      OpStepKeeps(View(s, t), root, op, o);
      OperatorMoves(s, t, OpStep(View(s, t), root, op, o).value);
    }
  }

  predicate InitCarries(l: Local, root: Option<nat>, l': Local) {
    && l'.task.pc.Starting? && l'.task.pc.root == root
    && SameOwnership(l.mem, l'.mem)
    && InitState(l'.mem, root, l'.task.pc.init)
  }

  lemma InitLoadingKeeps(l: Local, root: Option<nat>)
    requires root.Some? && l.mem.state != Stopped
    ensures InitCarries(l, root, InitLoading(l, root))
  {
  }

  lemma InitRecordingKeeps(l: Local, root: Option<nat>, stage: SaveStage, o: Outcome)
    requires root.Some? && l.mem.state != Stopped
    ensures InitCarries(l, root, InitRecording(l, root, stage, o))
  {
  }

  /** Up to the decision whether to prepare, apart from loading and recording. */
  lemma InitEarlyKeeps(l: Local, root: Option<nat>, init: InitPoint, o: Outcome)
    requires init.Locking? || (init.Loading? && o.Fails?) || init.Normalising? || init.FinishingInterrupted? || init.Deciding?
    requires InitState(l.mem, root, init) && l.mem.state != Stopped
    ensures InitStep(l, root, init, o).Some? && InitCarries(l, root, InitStep(l, root, init, o).value)
  {
  }

  lemma InitLateKeeps(l: Local, root: Option<nat>, init: InitPoint, o: Outcome)
    requires init.Preparing? || init.Inspecting? || init.FailingInit?
    requires InitState(l.mem, root, init) && l.mem.state != Stopped && InitStep(l, root, init, o).Some?
    ensures InitCarries(l, root, InitStep(l, root, init, o).value)
  {
  }

  lemma InitStepKeeps(l: Local, root: Option<nat>, init: InitPoint, o: Outcome)
    requires InitState(l.mem, root, init) && l.mem.state != Stopped && InitStep(l, root, init, o).Some?
    ensures InitCarries(l, root, InitStep(l, root, init, o).value)
  {
    if init.Loading? && !o.Fails? {
      InitLoadingKeeps(l, root);
    } else if init.RecordingInterrupted? {
      InitRecordingKeeps(l, root, init.stage, o);
    } else if init.Preparing? || init.Inspecting? || init.FailingInit? {
      InitLateKeeps(l, root, init, o);
    } else {
      InitEarlyKeeps(l, root, init, o);
    }
  }

  /** A move of initialization that touches no lease. */
  lemma InitializerMoves(s: Sys, t: nat, l: Local)
    requires Safe(s) && s.holder == Some(t) && s.tasks[t].pc.Starting?
    requires InitCarries(View(s, t), s.tasks[t].pc.root, l)
    requires CallerCode(s.tasks[t].pc) ==> forall u :: 0 <= u < |s.tasks| ==> !Frame(s.tasks[u].pc)
    ensures Safe(Put(s, t, l))
  {
    HolderMoves(s, Put(s, t, l), t);
  }

  lemma ClosingInitSafe(s: Sys, t: nat, root: Option<nat>, end: InitEnd)
    requires Safe(s) && s.holder == Some(t) && s.tasks[t].pc == Starting(root, ClosingInit(end)) && OnlyRoot(s, root)
    requires MoveClosingInit(s, t, root, end).Some?
    ensures Safe(MoveClosingInit(s, t, root, end).value)
  {
    var s' := MoveClosingInit(s, t, root, end).value;
    HolderMoves(s, s', t);
    LeaseCloses(s.leases, root.value, HolderPc(s), HolderPc(s'));
  }

  lemma LeavingInitSafe(s: Sys, t: nat, end: InitEnd)
    requires Safe(s) && s.holder == Some(t) && s.tasks[t].pc == Starting(None, LeavingInit(end))
    ensures Safe(MoveLeavingInit(s, t, end))
  {
    HolderLeaves(s, MoveLeavingInit(s, t, end), t);
  }

  lemma InitializerSafe(s: Sys, t: nat, root: Option<nat>, init: InitPoint, o: Outcome)
    requires Safe(s) && s.holder == Some(t) && s.tasks[t].pc == Starting(root, init)
    requires (init.Preparing? ==> NoFrames(s)) && (init.ClosingInit? ==> OnlyRoot(s, root))
    requires MoveInitializer(s, t, root, init, o).Some?
    ensures Safe(MoveInitializer(s, t, root, init, o).value)
  {
    if init.ClosingInit? {
      ClosingInitSafe(s, t, root, init.end);
    } else if init.LeavingInit? {
      LeavingInitSafe(s, t, init.end);
    } else {
      InitStepKeeps(View(s, t), root, init, o);
      InitializerMoves(s, t, InitStep(View(s, t), root, init, o).value);
    }
  }

  // ----- Nested operations

  /** A step of a nested operation leaves ownership alone. */
  predicate NestCarries(l: Local, l': Local) {
    SameOwnership(l.mem, l'.mem) && (l'.task.pc.Done? || l'.task.pc.Nesting?)
  }

  lemma NestStepKeeps(l: Local, nest: NestPoint, o: Outcome)
    requires l.mem.state != Stopped
    ensures NestCarries(l, NestStep(l, nest, o))
  {
  }

  lemma NestedSafe(s: Sys, t: nat, nest: NestPoint, o: Outcome)
    requires Safe(s) && t < |s.tasks| && s.tasks[t].pc == Nesting(nest)
    ensures Safe(MoveNested(s, t, nest, o))
  {
    NestStepKeeps(View(s, t), nest, o);
    NestedMoves(s, MoveNested(s, t, nest, o), t);
  }

  lemma RidingSafe(s: Sys, t: nat, returned: bool)
    requires Safe(s) && t < |s.tasks| && s.tasks[t].pc.Riding?
    ensures Safe(At(s, t, Done(returned)))
  {
    OthersMove(s, At(s, t, Done(returned)));
  }

  // ----- All actions

  lemma MoveSafe(s: Sys, t: nat, o: Outcome)
    requires Safe(s) && Move(s, t, o).Some? && WellNested(s, Advance(t, o))
    ensures Safe(Move(s, t, o).value)
  {
    match s.tasks[t].pc
    case Operating(root, op) => OperatorSafe(s, t, root, op, o);
    case Starting(root, init) => InitializerSafe(s, t, root, init, o);
    case Nesting(nest) => NestedSafe(s, t, nest, o);
    case Riding => RidingSafe(s, t, !o.Fails?);
  }

  /** Every well-nested step keeps the safety invariant. */
  lemma StepSafe(s: Sys, a: Action)
    requires Safe(s) && Enabled(s, a) && Nested(s, a)
    ensures Safe(Next(s, a).value)
  {
    match a
    case DoClaim => ClaimSafe(s);
    case DoInitialize => InitializeSafe(s);
    case DoAdmit(parent) => AdmitSafe(s, parent);
    case DoInspect => InspectSafe(s);
    case EndLease(l) => CloseLeaseSafe(s, l);
    case CallOperation(parent, operation, id) =>
      if parent.Some? { CallNestedSafe(s, parent.value, operation, id); } else { CallDriverSafe(s, operation, id); }
    case CallUnnamed(operation) => CallWithoutIdSafe(s, operation);
    case DoCancel(id) => CancelSafe(s, id);
    case DoStop => StopSafe(s);
    case Wake(t) => WakeSafe(s, t);
    case StopTimeout(t) => GiveUpSafe(s, t);
    case Advance(t, o) => MoveSafe(s, t, o);
    case Crash(survivor) => RebootSafe(s, survivor);
  }
}
