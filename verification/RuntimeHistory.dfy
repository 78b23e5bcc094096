/**
  What happened to each call so far, and what can no longer happen to it.
 */
module RuntimeHistory {
  import opened Wrappers
  import opened RuntimeTypes
  import opened RuntimeProtocol
  import opened RuntimeInvariant
  import opened RuntimeSafety

  /** A call that has run its body to the end, passed the check and recorded its success. */
  predicate Completed(task: Task) {
    && task.bodyStarted && task.checked && !task.cancelAccepted
    && task.finished == Some(Succeeded) && task.saved == Some(Succeeded)
  }

  /** Why an operation whose body has not started demands recovery. */
  predicate Owes(past: Past) { past.drained || past.found == Error || past.inherited }

  /**
    A call that raised: recorded failed if its body had started, never started if cancelled; its
    job demands recovery for one of the reasons above or not at all.
   */
  predicate GaveUp(task: Task) {
    && (task.bodyStarted ==> task.finished == Some(Failed))
    && (task.finished == Some(Failed) || task.finished == Some(Cancelled))
    && (task.cancelAccepted ==> !task.bodyStarted)
    && (task.past.demand <==> Owes(task.past))
  }

  predicate StageSucceeds(stage: SaveStage) {
    stage.Replace? || stage.Sync? ==> stage.job.Some? && stage.job.value.status == Succeeded
  }

  /** Not past its drain yet. */
  predicate Early(task: Task, m: Memory) {
    && !task.bodyStarted && (task.cancelAccepted ==> JobIs(m, Cancelled, Cancelled))
    && !task.past.drained && (JobRecovers(m.job) <==> Owes(task.past))
  }

  /** Past its drain, so that no `cancel` was accepted and none will be. */
  predicate Drained(task: Task) { task.past.drained && !task.cancelAccepted }

  predicate OpHistory(task: Task, op: OpPoint, m: Memory) {
    match op
    case RecordingWaiting(_, _) => Early(task, m)
    case Draining(_) => Early(task, m)
    case RecordingRunning(_, _) => !task.bodyStarted && !task.cancelAccepted && task.past.drained && JobRecovers(m.job)
    case Activating => !task.bodyStarted && Drained(task)
    case Body => task.bodyStarted && Drained(task)
    case Checking => task.bodyStarted && Drained(task)
    case Closing(ok) => Drained(task) && (ok ==> task.bodyStarted && task.checked)
    case FinishingSucceeded => task.bodyStarted && task.checked && Drained(task)
    case RecordingSucceeded(stage) =>
      task.bodyStarted && task.checked && Drained(task) && task.finished == Some(Succeeded) && StageSucceeds(stage)
    case Failing => Drained(task)
    case FinishingFailed => Drained(task)
    case RecordingFailed(_) => Drained(task) && task.finished == Some(Failed) && task.past.demand
    case Aborting(_) => !task.bodyStarted && (JobRecovers(m.job) <==> Owes(task.past))
    case FinishingCancelled(_) => !task.bodyStarted && (JobRecovers(m.job) <==> Owes(task.past))
    case RecordingCancelled(_, _) =>
      !task.bodyStarted && task.finished == Some(Cancelled) && (task.past.demand <==> Owes(task.past))
    case Leaving(returned) => if returned then Completed(task) else GaveUp(task)
  }

  predicate TaskHistory(task: Task, m: Memory) {
    && (task.pc.Operating? ==> task.kind.Operator?)
    && (task.pc.Starting? ==> task.kind.Initializer?)
    && (task.pc.Nesting? ==> task.kind.NestedOperator?)
    && (task.pc.Riding? ==> task.kind.Passenger?)
    && (task.pc.StopWaiting? ==> task.kind.Stopper?)
    && (task.kind.Operator? ==>
          match task.pc
          case Operating(_, op) => OpHistory(task, op, m)
          case Done(returned) => if returned then Completed(task) else GaveUp(task)
          case _ => task.cancelAccepted ==> !task.bodyStarted)
  }

  predicate Histories(s: Sys) {
    forall t :: 0 <= t < |s.tasks| ==> TaskHistory(s.tasks[t], s.mem)
  }

  // ----- What a step keeps forever

  predicate TaskGrows(task: Task, task': Task) {
    && task'.kind == task.kind
    && (task.bodyStarted ==> task'.bodyStarted) && (task.cancelAccepted ==> task'.cancelAccepted)
    && task'.past.found == task.past.found
  }

  predicate LeaseFades(lease: Lease, lease': Lease) {
    lease' == lease || lease' == lease.(active := false)
  }

  /** Calls keep their history; leases only end, and new ones have live parents. */
  predicate Grows(s: Sys, s': Sys) {
    && |s.tasks| <= |s'.tasks| && (forall t :: 0 <= t < |s.tasks| ==> TaskGrows(s.tasks[t], s'.tasks[t]))
    && |s.leases| <= |s'.leases| && (forall l :: 0 <= l < |s.leases| ==> LeaseFades(s.leases[l], s'.leases[l]))
    && (forall l :: |s.leases| <= l < |s'.leases| && s'.leases[l].parent.Some? ==>
          s'.leases[l].parent.value < |s.leases| ==> s.leases[s'.leases[l].parent.value].active)
  }

  lemma OpStepGrows(l: Local, root: Option<nat>, op: OpPoint, o: Outcome)
    requires OpStep(l, root, op, o).Some?
    ensures TaskGrows(l.task, OpStep(l, root, op, o).value.task)
  {
    if Recording(op) {
      RecordingGrows(l, op, o);
    }
  }

  lemma RecordingGrows(l: Local, op: OpPoint, o: Outcome)
    requires Recording(op)
    ensures TaskGrows(l.task, OpRecording(l, op, op.stage, o).task)
  {
  }

  lemma InitStepGrows(l: Local, root: Option<nat>, init: InitPoint, o: Outcome)
    requires InitStep(l, root, init, o).Some?
    ensures TaskGrows(l.task, InitStep(l, root, init, o).value.task)
  {
    if init.RecordingInterrupted? {
      InitRecordingGrows(l, root, init.stage, o);
    }
  }

  lemma InitRecordingGrows(l: Local, root: Option<nat>, stage: SaveStage, o: Outcome)
    ensures TaskGrows(l.task, InitRecording(l, root, stage, o).task)
  {
  }

  lemma NestStepGrows(l: Local, nest: NestPoint, o: Outcome)
    ensures TaskGrows(l.task, NestStep(l, nest, o).task)
  {
  }

  /** A step of one call that opens at most its own root and closes at most one lease. */
  lemma PutGrows(s: Sys, t: nat, l: Local)
    requires t < |s.tasks| && TaskGrows(s.tasks[t], l.task)
    ensures Grows(s, Put(s, t, l))
  {
  }

  lemma MoveOperatorGrows(s: Sys, t: nat, root: Option<nat>, op: OpPoint, o: Outcome)
    requires t < |s.tasks| && MoveOperator(s, t, root, op, o).Some?
    ensures Grows(s, MoveOperator(s, t, root, op, o).value)
  {
    if op.Closing? || op.Leaving? || StartsRegion(op, o) {
    } else {
      OpStepGrows(View(s, t), root, op, o);
      PutGrows(s, t, OpStep(View(s, t), root, op, o).value);
    }
  }

  lemma MoveInitializerGrows(s: Sys, t: nat, root: Option<nat>, init: InitPoint, o: Outcome)
    requires t < |s.tasks| && MoveInitializer(s, t, root, init, o).Some?
    ensures Grows(s, MoveInitializer(s, t, root, init, o).value)
  {
    if !init.ClosingInit? && !init.LeavingInit? {
      InitStepGrows(View(s, t), root, init, o);
      PutGrows(s, t, InitStep(View(s, t), root, init, o).value);
    }
  }

  lemma MoveNestedGrows(s: Sys, t: nat, nest: NestPoint, o: Outcome)
    requires t < |s.tasks|
    ensures Grows(s, MoveNested(s, t, nest, o))
  {
    NestStepGrows(View(s, t), nest, o);
    PutGrows(s, t, NestStep(View(s, t), nest, o));
  }

  lemma MoveGrows(s: Sys, t: nat, o: Outcome)
    requires Move(s, t, o).Some?
    ensures Grows(s, Move(s, t, o).value)
  {
    match s.tasks[t].pc
    case Operating(root, op) => MoveOperatorGrows(s, t, root, op, o);
    case Starting(root, init) => MoveInitializerGrows(s, t, root, init, o);
    case Nesting(nest) => MoveNestedGrows(s, t, nest, o);
    case Riding => PutGrows(s, t, View(s, t).(task := s.tasks[t].(pc := Done(!o.Fails?))));
  }

  /** Calls and leases only arrive. */
  lemma ArrivalGrows(s: Sys, s': Sys)
    requires s.tasks <= s'.tasks && s.leases <= s'.leases
    requires forall l :: |s.leases| <= l < |s'.leases| && s'.leases[l].parent.Some? ==>
                           s'.leases[l].parent.value < |s.leases| && s.leases[s'.leases[l].parent.value].active
    ensures Grows(s, s')
  {
  }

  lemma CallGrows(s: Sys, a: Action)
    requires Enabled(s, a) && (a.DoInitialize? || a.CallOperation? || a.DoStop? || a.DoAdmit? || a.DoInspect?)
    ensures Grows(s, Next(s, a).value)
  {
    ArrivalGrows(s, Next(s, a).value);
  }

  /** One call moves on, and no lease opens. */
  lemma TaskMoves(s: Sys, s': Sys, t: nat, task: Task)
    requires t < |s.tasks| && s'.tasks == s.tasks[t := task] && TaskGrows(s.tasks[t], task) && s'.leases == s.leases
    ensures Grows(s, s')
  {
  }

  lemma EventGrows(s: Sys, a: Action)
    requires Enabled(s, a) && (a.DoClaim? || a.CallUnnamed? || a.EndLease? || a.DoCancel? || a.Wake? || a.StopTimeout?)
    ensures Grows(s, Next(s, a).value)
  {
    match a
    case Wake(t) => TaskMoves(s, WakeStopper(s, t).value, t, WakeStopper(s, t).value.tasks[t]);
    case StopTimeout(t) => TaskMoves(s, GiveUpStop(s, t).value, t, s.tasks[t].(pc := Done(false)));
    case DoCancel(id) => CancelGrows(s, id);
    case _ =>
  }

  lemma CancelGrows(s: Sys, id: nat)
    requires CancelJob(s, id).Some?
    ensures Grows(s, CancelJob(s, id).value)
  {
    if s.holder.Some? && s.holder.value < |s.tasks| {
      TaskMoves(s, CancelJob(s, id).value, s.holder.value, CancelSeen(s.tasks[s.holder.value]));
    }
  }

  lemma RebootGrows(s: Sys, survivor: Journal)
    requires Reboot(s, survivor).Some?
    ensures Grows(s, Reboot(s, survivor).value)
  {
  }

  lemma StepGrows(s: Sys, a: Action)
    requires Enabled(s, a)
    ensures Grows(s, Next(s, a).value)
  {
    match a
    case Advance(t, o) => MoveGrows(s, t, o);
    case DoInitialize => CallGrows(s, a);
    case CallOperation(_, _, _) => CallGrows(s, a);
    case DoStop => CallGrows(s, a);
    case DoAdmit(_) => CallGrows(s, a);
    case DoInspect => CallGrows(s, a);
    case Crash(survivor) => RebootGrows(s, survivor);
    case _ => EventGrows(s, a);
  }

  // ----- What a step adds to a call's history

  predicate OpCarriesOn(l: Local, l': Local) {
    l'.task.kind == l.task.kind && l'.task.pc.Operating? && OpHistory(l'.task, l'.task.pc.op, l'.mem)
  }

  lemma SavingHistory(l: Local, op: OpPoint, o: Outcome)
    requires Recording(op) && OpState(l.mem, None, op) && OpHistory(l.task, op, l.mem)
    requires Save(l.mem, l.disk, op.stage, o).InProgress?
    ensures OpCarriesOn(l, OpRecording(l, op, op.stage, o))
  {
  }

  lemma WrittenHistory(l: Local, op: OpPoint, o: Outcome)
    requires Recording(op) && !StartsRegion(op, o) && OpState(l.mem, None, op) && OpHistory(l.task, op, l.mem)
    requires Save(l.mem, l.disk, op.stage, o).Written?
    ensures OpCarriesOn(l, OpRecording(l, op, op.stage, o))
  {
  }

  lemma RaisedHistory(l: Local, op: OpPoint, o: Outcome)
    requires Recording(op) && OpState(l.mem, None, op) && OpHistory(l.task, op, l.mem)
    requires Save(l.mem, l.disk, op.stage, o).Raised?
    ensures OpCarriesOn(l, OpRecording(l, op, op.stage, o))
  {
  }

  lemma RecordingHistory(l: Local, op: OpPoint, o: Outcome)
    requires Recording(op) && !StartsRegion(op, o) && OpState(l.mem, None, op) && OpHistory(l.task, op, l.mem)
    ensures OpCarriesOn(l, OpRecording(l, op, op.stage, o))
  {
    match Save(l.mem, l.disk, op.stage, o)
    case InProgress(_, _) => SavingHistory(l, op, o);
    case Written(_, _) => WrittenHistory(l, op, o);
    case Raised(_) => RaisedHistory(l, op, o);
  }

  /** From the drain to the check. */
  lemma InsideHistory(l: Local, root: Option<nat>, op: OpPoint, o: Outcome)
    requires op.Draining? || op.Activating? || op.Body? || op.Checking?
    requires OpState(l.mem, root, op) && OpHistory(l.task, op, l.mem) && OpStep(l, root, op, o).Some?
    ensures OpCarriesOn(l, OpStep(l, root, op, o).value)
  {
    if op.Draining? {
      DrainingHistory(l, op.before, o);
    }
  }

  lemma DrainingHistory(l: Local, before: RuntimeState, o: Outcome)
    requires OpState(l.mem, None, Draining(before)) && OpHistory(l.task, Draining(before), l.mem) && OpDraining(l, before, o).Some?
    ensures OpCarriesOn(l, OpDraining(l, before, o).value)
  {
  }

  /** After the region. */
  lemma OutsideHistory(l: Local, root: Option<nat>, op: OpPoint, o: Outcome)
    requires !Recording(op) && !op.Draining? && !op.Activating? && !op.Body? && !op.Checking?
    requires OpState(l.mem, root, op) && OpHistory(l.task, op, l.mem) && OpStep(l, root, op, o).Some?
    ensures OpCarriesOn(l, OpStep(l, root, op, o).value)
  {
  }

  lemma OpStepHistory(l: Local, root: Option<nat>, op: OpPoint, o: Outcome)
    requires OpState(l.mem, root, op) && OpHistory(l.task, op, l.mem) && OpStep(l, root, op, o).Some? && !StartsRegion(op, o)
    ensures OpCarriesOn(l, OpStep(l, root, op, o).value)
  {
    if Recording(op) {
      RecordingHistory(l, op, o);
    } else if op.Draining? || op.Activating? || op.Body? || op.Checking? {
      InsideHistory(l, root, op, o);
    } else {
      OutsideHistory(l, root, op, o);
    }
  }

  /** Calls that did not move keep their history when the job is not theirs or did not change. */
  lemma HistoryElsewhere(s: Sys, s': Sys, t: nat)
    requires Histories(s) && |s.tasks| <= |s'.tasks|
    requires forall u :: 0 <= u < |s.tasks| && u != t ==> s'.tasks[u] == s.tasks[u]
    requires forall u :: 0 <= u < |s.tasks| && u != t && s.tasks[u].pc.Operating? ==> s'.mem.job == s.mem.job
    requires forall u :: |s.tasks| <= u < |s'.tasks| ==> TaskHistory(s'.tasks[u], s'.mem)
    requires t < |s'.tasks| ==> TaskHistory(s'.tasks[t], s'.mem)
    ensures Histories(s')
  {
    forall u | 0 <= u < |s'.tasks|
      ensures TaskHistory(s'.tasks[u], s'.mem)
    {
      if u < |s.tasks| && u != t {
        assert TaskHistory(s.tasks[u], s.mem);
      }
    }
  }

  lemma OperatorHistory(s: Sys, t: nat, root: Option<nat>, op: OpPoint, o: Outcome)
    requires Safe(s) && Histories(s) && s.holder == Some(t) && s.tasks[t].pc == Operating(root, op)
    requires MoveOperator(s, t, root, op, o).Some?
    ensures Histories(MoveOperator(s, t, root, op, o).value)
  {
    assert TaskHistory(s.tasks[t], s.mem);
    if !op.Closing? && !op.Leaving? && !StartsRegion(op, o) {
      OpStepHistory(View(s, t), root, op, o);
    }
    HistoryElsewhere(s, MoveOperator(s, t, root, op, o).value, t);
  }

  lemma InitializerHistory(s: Sys, t: nat, root: Option<nat>, init: InitPoint, o: Outcome)
    requires Safe(s) && Histories(s) && s.holder == Some(t) && s.tasks[t].pc == Starting(root, init)
    requires MoveInitializer(s, t, root, init, o).Some?
    ensures Histories(MoveInitializer(s, t, root, init, o).value)
  {
    var s' := MoveInitializer(s, t, root, init, o).value;
    assert TaskHistory(s.tasks[t], s.mem);
    if !init.ClosingInit? && !init.LeavingInit? {
      InitStepGrows(View(s, t), root, init, o);
      InitStepKeeps(View(s, t), root, init, o);
    }
    HistoryElsewhere(s, s', t);
  }

  lemma NestedHistory(s: Sys, t: nat, nest: NestPoint, o: Outcome)
    requires Safe(s) && Histories(s) && t < |s.tasks| && s.tasks[t].pc == Nesting(nest)
    ensures Histories(MoveNested(s, t, nest, o))
  {
    assert TaskHistory(s.tasks[t], s.mem);
    NestStepGrows(View(s, t), nest, o);
    NestStepKeeps(View(s, t), nest, o);
    HistoryElsewhere(s, MoveNested(s, t, nest, o), t);
  }

  lemma MoveHistory(s: Sys, t: nat, o: Outcome)
    requires Safe(s) && Histories(s) && Move(s, t, o).Some?
    ensures Histories(Move(s, t, o).value)
  {
    match s.tasks[t].pc
    case Operating(root, op) => OperatorHistory(s, t, root, op, o);
    case Starting(root, init) => InitializerHistory(s, t, root, init, o);
    case Nesting(nest) => NestedHistory(s, t, nest, o);
    case Riding =>
      assert TaskHistory(s.tasks[t], s.mem);
      HistoryElsewhere(s, At(s, t, Done(!o.Fails?)), t);
  }

  lemma CancelHistory(s: Sys, id: nat)
    requires Safe(s) && Histories(s) && CancelJob(s, id).Some?
    ensures Histories(CancelJob(s, id).value)
  {
    if s.holder.Some? {
      assert TaskHistory(s.tasks[s.holder.value], s.mem);
      HistoryElsewhere(s, CancelJob(s, id).value, s.holder.value);
    } else {
      HistoryElsewhere(s, CancelJob(s, id).value, |s.tasks|);
    }
  }

  lemma RebootHistory(s: Sys, survivor: Journal)
    requires Histories(s) && Reboot(s, survivor).Some?
    ensures Histories(Reboot(s, survivor).value)
  {
    var s' := Reboot(s, survivor).value;
    forall t | 0 <= t < |s'.tasks|
      ensures TaskHistory(s'.tasks[t], s'.mem)
    {
      assert TaskHistory(s.tasks[t], s.mem);
    }
  }

  lemma StopperEnds(s: Sys, s': Sys, t: nat, returned: bool)
    requires Histories(s) && t < |s.tasks| && s.tasks[t].pc.StopWaiting?
    requires s'.tasks == s.tasks[t := s.tasks[t].(pc := Done(returned))] && s'.mem.job == s.mem.job
    ensures Histories(s')
  {
    assert TaskHistory(s.tasks[t], s.mem);
    HistoryElsewhere(s, s', t);
  }

  lemma WakeHistory(s: Sys, t: nat)
    requires Histories(s) && WakeStopper(s, t).Some?
    ensures Histories(WakeStopper(s, t).value)
  {
    StopperEnds(s, WakeStopper(s, t).value, t, s.mem.owned);
  }

  lemma GiveUpHistory(s: Sys, t: nat)
    requires Histories(s) && GiveUpStop(s, t).Some?
    ensures Histories(GiveUpStop(s, t).value)
  {
    StopperEnds(s, GiveUpStop(s, t).value, t, false);
  }

  /** No call appears and none moves. */
  lemma CalmHistory(s: Sys, s': Sys)
    requires Histories(s) && s'.tasks == s.tasks && s'.mem.job == s.mem.job
    ensures Histories(s')
  {
    HistoryElsewhere(s, s', |s'.tasks|);
  }

  /** One call appears, with nothing behind it. */
  lemma ArrivalHistory(s: Sys, s': Sys, task: Task)
    requires Histories(s) && s'.tasks == s.tasks + [task] && TaskHistory(task, s'.mem) && s'.mem.job == s.mem.job
    ensures Histories(s')
  {
    HistoryElsewhere(s, s', |s'.tasks|);
  }

  lemma CallDriverHistory(s: Sys, operation: Operation, id: nat)
    requires Safe(s) && Histories(s) && CallDriver(s, operation, id).Some?
    ensures Histories(CallDriver(s, operation, id).value)
  {
    var s' := CallDriver(s, operation, id).value;
    assert TaskHistory(s'.tasks[|s.tasks|], s'.mem);
    HistoryElsewhere(s, s', |s.tasks|);
  }

  lemma CallHistory(s: Sys, a: Action)
    requires Safe(s) && Histories(s) && Enabled(s, a)
    requires a.DoInitialize? || a.CallOperation? || a.DoStop?
    ensures Histories(Next(s, a).value)
  {
    match a
    case DoInitialize => ArrivalHistory(s, Initialize(s).value, Initialize(s).value.tasks[|s.tasks|]);
    case CallOperation(Some(parent), operation, id) => CallNestedHistory(s, parent, operation, id);
    case CallOperation(None, operation, id) => CallDriverHistory(s, operation, id);
    case DoStop => ArrivalHistory(s, Stop(s).value, Stop(s).value.tasks[|s.tasks|]);
  }

  lemma CallNestedHistory(s: Sys, p: nat, operation: Operation, id: nat)
    requires Histories(s) && CallNested(s, p, operation, id).Some?
    ensures Histories(CallNested(s, p, operation, id).value)
  {
    var s' := CallNested(s, p, operation, id).value;
    ArrivalHistory(s, s', s'.tasks[|s.tasks|]);
  }

  lemma LeaseHistory(s: Sys, a: Action)
    requires Histories(s) && Enabled(s, a) && (a.DoClaim? || a.DoAdmit? || a.DoInspect? || a.EndLease? || a.CallUnnamed?)
    ensures Histories(Next(s, a).value)
  {
    CalmHistory(s, Next(s, a).value);
  }

  /** Every step keeps the calls' histories truthful. */
  lemma StepHistory(s: Sys, a: Action)
    requires Safe(s) && Histories(s) && Enabled(s, a)
    ensures Histories(Next(s, a).value)
  {
    match a
    case Advance(t, o) => MoveHistory(s, t, o);
    case DoCancel(id) => CancelHistory(s, id);
    case Crash(survivor) => RebootHistory(s, survivor);
    case Wake(t) => WakeHistory(s, t);
    case StopTimeout(t) => GiveUpHistory(s, t);
    case DoInitialize => CallHistory(s, a);
    case CallOperation(_, _, _) => CallHistory(s, a);
    case DoStop => CallHistory(s, a);
    case _ => LeaseHistory(s, a);
  }
}
