/**
  Who is let in, and in which state each call leaves the instance: for operations by how their job
  was finished, for initialization by what the probe reported.
 */
module RuntimeOutcomes {
  import opened Wrappers
  import opened RuntimeTypes
  import opened RuntimeProtocol
  import opened RuntimeInvariant
  import opened RuntimeSafety
  import opened RuntimeHistory
  import opened RuntimeFailures
  import opened RuntimeStopping
  import opened RuntimeTheorems

  // ----- Who is let in

  /** No call drives, and none with an unparsable job id left `busy` behind. */
  predicate Free(s: Sys, actions: seq<Action>) {
    !LeftBusy(actions, false) && forall t :: 0 <= t < |s.tasks| ==> !Driver(s.tasks[t].pc)
  }

  /**
    In every reachable state each request is granted exactly for these reasons: ordinary work when
    the instance is ready and free, work in a context while that lives, inspection also while a
    migration is due, an operation also in error, initialization after a claim, a claim when stopped.
   */
  lemma GrantedExactly(journal: Journal, actions: seq<Action>, operation: Operation, id: nat, p: nat)
    requires Runs(Boot(journal), actions) && NestedRun(Boot(journal), actions)
    ensures
      var s := After(Boot(journal), actions);
      var free := Free(s, actions);
      && (AdmitLease(s, None).Some? <==> s.mem.state == Ready && free)
      && (AdmitLease(s, Some(p)).Some? <==> p < |s.leases| && s.leases[p].active)
      && (InspectLease(s).Some? <==> (s.mem.state == Ready || s.mem.state == MigrationRequired) && free)
      && (CallDriver(s, operation, id).Some? <==>
            (s.mem.state == Ready || s.mem.state == MigrationRequired || s.mem.state == Error) && free)
      && (CallWithoutId(s, operation).Some? <==> CallDriver(s, operation, id).Some?)
      && (CallNested(s, p, operation, id).Some? <==> p < |s.leases| && s.leases[p].active && s.leases[p].exclusive)
      && (Initialize(s).Some? <==> s.mem.state == Initializing && free)
      && (ClaimOwner(s).Some? <==> s.mem.state == Stopped)
      && (Stop(s).Some? <==> s.mem.state != Stopped)
  {
    FreeExactly(journal, actions);
    Grants(After(Boot(journal), actions), operation, id, p);
  }

  lemma Grants(s: Sys, operation: Operation, id: nat, p: nat)
    requires Safe(s)
    ensures AdmitLease(s, None).Some? <==> s.mem.state == Ready && !s.mem.busy
    ensures AdmitLease(s, Some(p)).Some? <==> p < |s.leases| && s.leases[p].active
    ensures InspectLease(s).Some? <==> (s.mem.state == Ready || s.mem.state == MigrationRequired) && !s.mem.busy
    ensures CallDriver(s, operation, id).Some? <==>
              (s.mem.state == Ready || s.mem.state == MigrationRequired || s.mem.state == Error) && !s.mem.busy
    ensures CallWithoutId(s, operation).Some? <==> CallDriver(s, operation, id).Some?
    ensures CallNested(s, p, operation, id).Some? <==> p < |s.leases| && s.leases[p].active && s.leases[p].exclusive
    ensures Initialize(s).Some? <==> s.mem.state == Initializing && !s.mem.busy
    ensures (ClaimOwner(s).Some? <==> s.mem.state == Stopped) && (Stop(s).Some? <==> s.mem.state != Stopped)
  {
  }

  lemma FreeExactly(journal: Journal, actions: seq<Action>)
    requires Runs(Boot(journal), actions) && NestedRun(Boot(journal), actions)
    ensures Safe(After(Boot(journal), actions))
    ensures After(Boot(journal), actions).mem.busy <==> !Free(After(Boot(journal), actions), actions)
  {
    BootInvariant(journal);
    NestedRunKeeps(Boot(journal), actions);
    WedgedByCall(Boot(journal), actions);
    FreeOfHolder(After(Boot(journal), actions));
  }

  /** `cancel` is accepted exactly for the job with that id that waits while some call is busy, and calls that job off. */
  lemma CancelsExactly(journal: Journal, actions: seq<Action>, id: nat)
    requires Runs(Boot(journal), actions) && NestedRun(Boot(journal), actions)
    ensures
      var s := After(Boot(journal), actions);
      var waits := s.mem.job.Some? && s.mem.job.value.id == id && s.mem.job.value.status == Waiting;
      && (CancelJob(s, id).Some? <==> waits && !Free(s, actions))
      && (CancelJob(s, id).Some? ==>
            CancelJob(s, id).value.mem == s.mem.(job := Some(s.mem.job.value.(status := Cancelled))))
  {
    FreeExactly(journal, actions);
  }

  lemma FreeOfHolder(s: Sys)
    requires Safe(s)
    ensures s.mem.busy <==> s.wedged || exists t :: 0 <= t < |s.tasks| && Driver(s.tasks[t].pc)
  {
    if s.holder.Some? {
      assert Driver(s.tasks[s.holder.value].pc);
    }
  }

  /** A nested call has its own job only during initialization and while no job runs; otherwise its body runs along. */
  lemma NestedCallExactly(s: Sys, p: nat, operation: Operation, id: nat)
    requires Safe(s) && CallNested(s, p, operation, id).Some?
    ensures
      var s' := CallNested(s, p, operation, id).value;
      var task := s'.tasks[|s.tasks|];
      && |s'.tasks| == |s.tasks| + 1 && s'.mem == s.mem && s'.disk == s.disk
      && (task.kind.NestedOperator? <==>
            (exists t :: 0 <= t < |s.tasks| && s.tasks[t].pc.Starting?) && !(s.mem.job.Some? && s.mem.job.value.status == Running))
      && (!task.kind.NestedOperator? ==> task.kind.Passenger? && task.bodyStarted)
  {
    if s.mem.initializing {
      assert s.tasks[s.holder.value].pc.Starting?;
    }
  }

  // ----- The state an operation leaves

  /** Back where it was found, or asked to stop. */
  predicate Back(task: Task, state: RuntimeState) { state == task.past.found || state == Stopping }

  predicate Shuts(state: RuntimeState) { state == Error || state == Stopping }

  /** What holds of the state at each point of an operation. */
  predicate Leads(task: Task, op: OpPoint, state: RuntimeState) {
    match op
    case RecordingWaiting(_, b) => b == task.past.found && task.finished.None?
    case Draining(b) => b == task.past.found && task.finished.None?
    case RecordingRunning(_, b) => b == task.past.found && task.finished.None?
    case Aborting(b) => b == task.past.found && task.finished.None?
    case FinishingCancelled(b) => b == task.past.found && task.finished.None? && Back(task, state)
    case RecordingCancelled(_, _) => task.finished == Some(Cancelled) && task.saved.None? && Back(task, state)
    case FinishingFailed => task.finished != Some(Cancelled) && Shuts(state)
    case RecordingFailed(_) => task.finished == Some(Failed) && Shuts(state)
    case RecordingSucceeded(_) => task.finished == Some(Succeeded)
    case Leaving(true) => task.finished == Some(Succeeded)
    case Leaving(false) => LeftAs(task, state)
    case Failing => task.finished != Some(Cancelled)
    case _ => task.finished.None?
  }

  /** By how the job was finished: failed closes, cancelled restores, and so does a cancelled one that could not be saved, or it closes. */
  predicate LeftAs(task: Task, state: RuntimeState) {
    || (task.finished == Some(Failed) && Shuts(state))
    || (task.finished == Some(Cancelled) && (Back(task, state) || (state == Error && task.saved.None?)))
  }

  predicate HolderLeads(s: Sys)
    requires HolderOk(s)
  {
    HolderPc(s).Operating? ==> Leads(s.tasks[s.holder.value], HolderPc(s).op, s.mem.state)
  }

  predicate LeadsOn(l: Local) { l.task.pc.Operating? && Leads(l.task, l.task.pc.op, l.mem.state) }

  lemma SavingLeads(l: Local, op: OpPoint, o: Outcome)
    requires Recording(op) && Leads(l.task, op, l.mem.state) && Save(l.mem, l.disk, op.stage, o).InProgress?
    ensures LeadsOn(OpRecording(l, op, op.stage, o))
  {
  }

  lemma WrittenLeads(l: Local, op: OpPoint, o: Outcome)
    requires Recording(op) && Leads(l.task, op, l.mem.state) && Save(l.mem, l.disk, op.stage, o).Written? && !StartsRegion(op, o)
    ensures LeadsOn(OpRecording(l, op, op.stage, o))
  {
  }

  lemma RaisedLeads(l: Local, op: OpPoint, o: Outcome)
    requires Recording(op) && Leads(l.task, op, l.mem.state) && Save(l.mem, l.disk, op.stage, o).Raised?
    ensures LeadsOn(OpRecording(l, op, op.stage, o))
  {
  }

  lemma DrainingLeads(l: Local, before: RuntimeState, o: Outcome)
    requires Leads(l.task, Draining(before), l.mem.state) && OpDraining(l, before, o).Some?
    ensures LeadsOn(OpDraining(l, before, o).value)
  {
  }

  lemma InsideLeads(l: Local, root: Option<nat>, op: OpPoint, o: Outcome)
    requires op.Activating? || op.Body? || op.Checking?
    requires Leads(l.task, op, l.mem.state) && OpStep(l, root, op, o).Some?
    ensures LeadsOn(OpStep(l, root, op, o).value)
  {
  }

  lemma OutsideLeads(l: Local, root: Option<nat>, op: OpPoint, o: Outcome)
    requires !Recording(op) && !op.Draining? && !op.Activating? && !op.Body? && !op.Checking?
    requires Leads(l.task, op, l.mem.state) && OpStep(l, root, op, o).Some?
    ensures LeadsOn(OpStep(l, root, op, o).value)
  {
  }

  lemma OpStepLeads(l: Local, root: Option<nat>, op: OpPoint, o: Outcome)
    requires Leads(l.task, op, l.mem.state) && OpStep(l, root, op, o).Some? && !StartsRegion(op, o)
    ensures LeadsOn(OpStep(l, root, op, o).value)
  {
    if Recording(op) {
      match Save(l.mem, l.disk, op.stage, o)
      case InProgress(_, _) => SavingLeads(l, op, o);
      case Written(_, _) => WrittenLeads(l, op, o);
      case Raised(_) => RaisedLeads(l, op, o);
    } else if op.Draining? {
      DrainingLeads(l, op.before, o);
    } else if op.Activating? || op.Body? || op.Checking? {
      InsideLeads(l, root, op, o);
    } else {
      OutsideLeads(l, root, op, o);
    }
  }

  /** Steps of others: the driver stays where it is, and the state too, unless somebody asks to stop. */
  lemma OthersLead(s: Sys, s': Sys)
    requires HolderOk(s) && HolderOk(s') && HolderLeads(s) && s'.holder == s.holder
    requires s.holder.Some? ==>
               var task, task' := s.tasks[s.holder.value], s'.tasks[s.holder.value];
               task'.pc == task.pc && task'.finished == task.finished && task'.saved == task.saved && task'.past == task.past
    requires HolderPc(s).Operating? ==> s'.mem.state == s.mem.state || s'.mem.state == Stopping
    ensures HolderLeads(s')
  {
  }

  lemma OperatorLeads(s: Sys, t: nat, root: Option<nat>, op: OpPoint, o: Outcome)
    requires HolderOk(s) && HolderLeads(s) && s.holder == Some(t) && s.tasks[t].pc == Operating(root, op)
    requires MoveOperator(s, t, root, op, o).Some? && HolderOk(MoveOperator(s, t, root, op, o).value)
    ensures HolderLeads(MoveOperator(s, t, root, op, o).value)
  {
    if !op.Closing? && !op.Leaving? && !StartsRegion(op, o) {
      OpStepLeads(View(s, t), root, op, o);
    }
  }

  /** Initialization and what is nested in it never turn into an operation. */
  lemma StarterLeads(s: Sys, t: nat, root: Option<nat>, init: InitPoint, o: Outcome)
    requires Safe(s) && s.holder == Some(t) && s.tasks[t].pc == Starting(root, init)
    requires MoveInitializer(s, t, root, init, o).Some? && HolderOk(MoveInitializer(s, t, root, init, o).value)
    ensures HolderLeads(MoveInitializer(s, t, root, init, o).value)
  {
    if !init.ClosingInit? && !init.LeavingInit? {
      InitStepKeeps(View(s, t), root, init, o);
    }
  }

  lemma NestedLeads(s: Sys, t: nat, nest: NestPoint, o: Outcome)
    requires Drivers(s) && t < |s.tasks| && s.tasks[t].pc == Nesting(nest) && HolderOk(MoveNested(s, t, nest, o))
    ensures HolderLeads(MoveNested(s, t, nest, o))
  {
    assert Frame(s.tasks[t].pc) && s.holder != Some(t);
  }

  lemma MoveLeads(s: Sys, t: nat, o: Outcome)
    requires Safe(s) && HolderLeads(s) && Move(s, t, o).Some? && HolderOk(Move(s, t, o).value)
    ensures HolderLeads(Move(s, t, o).value)
  {
    match s.tasks[t].pc
    case Operating(root, op) => OperatorLeads(s, t, root, op, o);
    case Starting(root, init) => StarterLeads(s, t, root, init, o);
    case Nesting(nest) => NestedLeads(s, t, nest, o);
    case Riding => OthersLead(s, At(s, t, Done(!o.Fails?)));
  }

  lemma CallDriverLeads(s: Sys, operation: Operation, id: nat)
    requires HolderOk(s) && CallDriver(s, operation, id).Some? && HolderOk(CallDriver(s, operation, id).value)
    ensures HolderLeads(CallDriver(s, operation, id).value)
    ensures CallDriver(s, operation, id).value.tasks[|s.tasks|].past.found == s.mem.state
  {
  }

  lemma CallNestedLeads(s: Sys, p: nat, operation: Operation, id: nat)
    requires HolderOk(s) && HolderLeads(s) && CallNested(s, p, operation, id).Some? && HolderOk(CallNested(s, p, operation, id).value)
    ensures HolderLeads(CallNested(s, p, operation, id).value)
  {
    OthersLead(s, CallNested(s, p, operation, id).value);
  }

  lemma CancelLeads(s: Sys, id: nat)
    requires HolderOk(s) && HolderLeads(s) && CancelJob(s, id).Some? && HolderOk(CancelJob(s, id).value)
    ensures HolderLeads(CancelJob(s, id).value)
  {
    OthersLead(s, CancelJob(s, id).value);
  }

  lemma StopLeads(s: Sys)
    requires HolderOk(s) && HolderLeads(s) && Stop(s).Some? && HolderOk(Stop(s).value) && (Idle(s.mem) ==> s.holder.None?)
    ensures HolderLeads(Stop(s).value)
  {
    OthersLead(s, Stop(s).value);
  }

  lemma WaiterLeads(s: Sys, t: nat, s': Sys)
    requires Drivers(s) && HolderLeads(s) && (WakeStopper(s, t) == Some(s') || GiveUpStop(s, t) == Some(s')) && HolderOk(s')
    requires Idle(s.mem) ==> s.holder.None?
    ensures HolderLeads(s')
  {
    OthersLead(s, s');
  }

  lemma SectionLeads(s: Sys, a: Action)
    requires Safe(s) && HolderLeads(s) && Enabled(s, a) && HolderOk(Next(s, a).value)
    requires a.DoClaim? || a.DoAdmit? || a.DoInspect? || a.EndLease? || a.CallUnnamed?
    ensures HolderLeads(Next(s, a).value)
  {
    OthersLead(s, Next(s, a).value);
  }

  lemma InitializeLeads(s: Sys)
    requires Initialize(s).Some? && HolderOk(Initialize(s).value)
    ensures HolderLeads(Initialize(s).value)
  {
  }

  lemma StepLeads(s: Sys, a: Action)
    requires Safe(s) && HolderLeads(s) && Enabled(s, a) && HolderOk(Next(s, a).value)
    ensures HolderLeads(Next(s, a).value)
  {
    match a
    case Advance(t, o) => MoveLeads(s, t, o);
    case DoInitialize => InitializeLeads(s);
    case CallOperation(Some(p), operation, id) => CallNestedLeads(s, p, operation, id);
    case CallOperation(None, operation, id) => CallDriverLeads(s, operation, id);
    case DoCancel(id) => CancelLeads(s, id);
    case DoStop => StopLeads(s);
    case Wake(t) => WaiterLeads(s, t, Next(s, a).value);
    case StopTimeout(t) => WaiterLeads(s, t, Next(s, a).value);
    case Crash(_) =>
    case _ => SectionLeads(s, a);
  }

  lemma {:induction false} RunLeads(s: Sys, actions: seq<Action>)
    requires Safe(s) && HolderLeads(s) && Runs(s, actions) && NestedRun(s, actions)
    ensures Safe(After(s, actions)) && HolderLeads(After(s, actions))
    decreases |actions|
  {
    if actions != [] {
      StepSafe(s, actions[0]);
      StepLeads(s, actions[0]);
      RunLeads(Next(s, actions[0]).value, actions[1..]);
    }
  }

  // ----- One call through a run

  predicate IsEvent(a: Action) { a.DoCancel? || a.DoStop? || a.Wake? || a.StopTimeout? || a.Crash? }

  /** A new call leaves every task as it is. */
  lemma NewCallsElsewhere(s: Sys, a: Action, t: nat)
    requires Enabled(s, a) && t < |s.tasks| && !IsEvent(a) && !a.Advance?
    ensures t < |Next(s, a).value.tasks| && Next(s, a).value.tasks[t] == s.tasks[t]
  {
  }

  /** Not finished any further, and where it is. */
  predicate Remains(task: Task, task': Task) { task'.finished == task.finished && task'.pc == task.pc }

  lemma CancelElsewhere(s: Sys, id: nat, t: nat)
    requires CancelJob(s, id).Some? && t < |s.tasks|
    ensures t < |CancelJob(s, id).value.tasks| && Remains(s.tasks[t], CancelJob(s, id).value.tasks[t])
  {
  }

  lemma WakeElsewhere(s: Sys, u: nat, s': Sys, t: nat)
    requires WakeStopper(s, u) == Some(s') || GiveUpStop(s, u) == Some(s')
    requires t < |s.tasks|
    ensures t < |s'.tasks| && s'.tasks[t].finished == s.tasks[t].finished
    ensures s.tasks[t].pc.StopWaiting? || s'.tasks[t].pc == s.tasks[t].pc
  {
  }

  /** An event leaves whether it is finished, and where it is, unless it crashes or waits to stop. */
  lemma EventsElsewhere(s: Sys, a: Action, t: nat)
    requires Enabled(s, a) && t < |s.tasks| && IsEvent(a)
    ensures t < |Next(s, a).value.tasks| && Next(s, a).value.tasks[t].finished == s.tasks[t].finished
    ensures a.Crash? || s.tasks[t].pc.StopWaiting? || Next(s, a).value.tasks[t].pc == s.tasks[t].pc
  {
    match a
    case DoCancel(id) => CancelElsewhere(s, id, t);
    case Wake(u) => WakeElsewhere(s, u, Next(s, a).value, t);
    case StopTimeout(u) => WakeElsewhere(s, u, Next(s, a).value, t);
    case _ =>
  }

  /** Only its own steps finish an operation. */
  lemma FinishedByItself(s: Sys, a: Action, t: nat)
    requires Enabled(s, a) && t < |s.tasks| && !(a.Advance? && a.task == t)
    ensures t < |Next(s, a).value.tasks| && Next(s, a).value.tasks[t].finished == s.tasks[t].finished
  {
    if a.Advance? {
      MoveLeavesOthers(s, a.task, a.outcome, t);
    } else if IsEvent(a) {
      EventsElsewhere(s, a, t);
    } else {
      NewCallsElsewhere(s, a, t);
    }
  }

  lemma DrainingFinishesNothing(l: Local, before: RuntimeState, o: Outcome)
    requires OpDraining(l, before, o).Some?
    ensures OpDraining(l, before, o).value.task.finished == l.task.finished
  {
  }

  predicate Finishing(op: OpPoint) { op.FinishingSucceeded? || op.FinishingFailed? || op.FinishingCancelled? }

  lemma OtherFinishesNothing(l: Local, root: Option<nat>, op: OpPoint, o: Outcome)
    requires OpStep(l, root, op, o).Some? && !Recording(op) && !op.Draining? && !Finishing(op)
    ensures OpStep(l, root, op, o).value.task.finished == l.task.finished
  {
    match op
    case Activating =>
    case Body =>
    case Checking =>
    case Failing =>
    case Aborting(_) =>
  }

  lemma FinishingRecords(l: Local, root: Option<nat>, op: OpPoint, o: Outcome)
    requires OpStep(l, root, op, o).Some? && Finishing(op)
    ensures OpStep(l, root, op, o).value.task.pc.Operating? && Recording(OpStep(l, root, op, o).value.task.pc.op)
  {
  }

  lemma OpStepFinishes(l: Local, root: Option<nat>, op: OpPoint, o: Outcome)
    requires OpStep(l, root, op, o).Some? && !Recording(op)
    ensures
      var task := OpStep(l, root, op, o).value.task;
      task.finished == l.task.finished || (task.pc.Operating? && Recording(task.pc.op))
  {
    if op.Draining? {
      DrainingFinishesNothing(l, op.before, o);
    } else if Finishing(op) {
      FinishingRecords(l, root, op, o);
    } else {
      OtherFinishesNothing(l, root, op, o);
    }
  }

  lemma RecordingFinishesNothing(l: Local, op: OpPoint, stage: SaveStage, o: Outcome)
    requires Recording(op)
    ensures OpRecording(l, op, stage, o).task.finished == l.task.finished
  {
  }

  /** The step that finishes an operation's job is followed by its record. */
  lemma FinishedThenRecorded(s: Sys, t: nat, root: Option<nat>, op: OpPoint, o: Outcome)
    requires t < |s.tasks| && s.tasks[t].pc == Operating(root, op) && MoveOperator(s, t, root, op, o).Some?
    requires MoveOperator(s, t, root, op, o).value.tasks[t].finished != s.tasks[t].finished
    ensures
      var pc := MoveOperator(s, t, root, op, o).value.tasks[t].pc;
      pc.Operating? && Recording(pc.op)
  {
    if !op.Closing? && !op.Leaving? && !StartsRegion(op, o) {
      if Recording(op) {
        RecordingFinishesNothing(View(s, t), op, op.stage, o);
      } else {
        OpStepFinishes(View(s, t), root, op, o);
      }
    }
  }

  /** A run from the call of an operation on. */
  ghost predicate Called(journal: Journal, before: seq<Action>, operation: Operation, id: nat, later: seq<Action>) {
    && Runs(Boot(journal), before) && NestedRun(Boot(journal), before)
    && CallDriver(After(Boot(journal), before), operation, id).Some?
    && Runs(CallDriver(After(Boot(journal), before), operation, id).value, later)
    && NestedRun(CallDriver(After(Boot(journal), before), operation, id).value, later)
  }

  ghost function CalledAt(journal: Journal, before: seq<Action>): Sys
    requires Runs(Boot(journal), before)
  {
    After(Boot(journal), before)
  }

  ghost function CalledThen(journal: Journal, before: seq<Action>, operation: Operation, id: nat, later: seq<Action>): Sys
    requires Called(journal, before, operation, id, later)
  {
    After(CallDriver(After(Boot(journal), before), operation, id).value, later)
  }

  /** What is known of the call at any time after it. */
  lemma CalledKnows(journal: Journal, before: seq<Action>, operation: Operation, id: nat, later: seq<Action>)
    requires Called(journal, before, operation, id, later)
    ensures
      var t, d := |CalledAt(journal, before).tasks|, CalledThen(journal, before, operation, id, later);
      && Safe(d) && HolderLeads(d) && Waiters(d) && Asked(d)
      && t < |d.tasks| && d.tasks[t].kind.Operator? && d.tasks[t].past.found == CalledAt(journal, before).mem.state
  {
    var s := CalledAt(journal, before);
    BootInvariant(journal);
    RunLeads(Boot(journal), before);
    RunStops(Boot(journal), before);
    var c := CallDriver(s, operation, id).value;
    CallDriverSafe(s, operation, id);
    CallDriverLeads(s, operation, id);
    CallDriverStops(s, operation, id);
    RunLeads(c, later);
    RunStops(c, later);
    FlagsPersist(c, later, |s.tasks|);
  }

  /** Asked to stop on the present claim. */
  predicate StopAsked(s: Sys) { s.mem.state == Stopping && s.stopAsked == s.claims }

  lemma StoppingIsAsked(s: Sys)
    requires Safe(s) && Asked(s) && s.mem.state == Stopping
    ensures StopAsked(s)
  {
  }

  /** What the next step keeps. */
  lemma NextKnows(s: Sys, a: Action)
    requires Safe(s) && HolderLeads(s) && Waiters(s) && Asked(s) && Enabled(s, a) && Nested(s, a)
    ensures
      var s' := Next(s, a).value;
      Safe(s') && HolderLeads(s') && Asked(s')
  {
    StepSafe(s, a);
    StepLeads(s, a);
    StepStops(s, a);
  }

  /** The step finishes the job of the call with that status. */
  predicate Finishes(d: Sys, a: Action, t: nat, status: JobStatus) {
    && Enabled(d, a) && t < |d.tasks| && t < |Next(d, a).value.tasks|
    && d.tasks[t].finished.None? && Next(d, a).value.tasks[t].finished == Some(status)
  }

  /**
    An operation that finishes its job as cancelled, for whatever reason, has put the instance back
    into the state in which the call found it, unless somebody asked to stop.
   */
  lemma CancelledRestores(journal: Journal, before: seq<Action>, operation: Operation, id: nat, later: seq<Action>, a: Action)
    requires Called(journal, before, operation, id, later)
    requires Nested(CalledThen(journal, before, operation, id, later), a)
    requires Finishes(CalledThen(journal, before, operation, id, later), a, |CalledAt(journal, before).tasks|, Cancelled)
    ensures
      var d := Next(CalledThen(journal, before, operation, id, later), a).value;
      d.mem.state == CalledAt(journal, before).mem.state || StopAsked(d)
  {
    CalledKnows(journal, before, operation, id, later);
    FinishedCancelled(CalledThen(journal, before, operation, id, later), a, |CalledAt(journal, before).tasks|);
  }

  lemma FinishedCancelled(d: Sys, a: Action, t: nat)
    requires Safe(d) && HolderLeads(d) && Waiters(d) && Asked(d) && Nested(d, a) && Finishes(d, a, t, Cancelled)
    ensures Next(d, a).value.mem.state == d.tasks[t].past.found || StopAsked(Next(d, a).value)
  {
    NextKnows(d, a);
    var d' := Next(d, a).value;
    FinishesBack(d, a, t);
    if d'.mem.state == Stopping {
      StoppingIsAsked(d');
    }
  }

  lemma FinishesBack(d: Sys, a: Action, t: nat)
    requires Drivers(d) && Finishes(d, a, t, Cancelled) && Drivers(Next(d, a).value) && HolderLeads(Next(d, a).value)
    ensures Next(d, a).value.mem.state == d.tasks[t].past.found || Next(d, a).value.mem.state == Stopping
  {
    if a.Advance? && a.task == t {
      MoveFinishes(d, t, a.outcome);
      FinishingPoint(d, t, a.outcome);
      MoveGrows(d, t, a.outcome);
      assert TaskGrows(d.tasks[t], Next(d, a).value.tasks[t]);
    } else {
      FinishedByItself(d, a, t);
    }
  }

  lemma NestFinishes(l: Local, nest: NestPoint, o: Outcome)
    requires l.task.finished.None?
    ensures NestStep(l, nest, o).task.finished != Some(Cancelled)
  {
  }

  lemma InitFinishes(l: Local, root: Option<nat>, init: InitPoint, o: Outcome)
    requires InitStep(l, root, init, o).Some?
    ensures InitStep(l, root, init, o).value.task.finished == l.task.finished
  {
    if init.RecordingInterrupted? {
      InitRecordingFinishes(l, root, init.stage, o);
    }
  }

  lemma InitRecordingFinishes(l: Local, root: Option<nat>, stage: SaveStage, o: Outcome)
    ensures InitRecording(l, root, stage, o).task.finished == l.task.finished
  {
    match Save(l.mem, l.disk, stage, o)
    case InProgress(_, _) =>
    case Written(_, _) =>
    case Raised(_) =>
  }

  /** Only an operation of its own is ever finished as cancelled. */
  lemma MoveFinishes(d: Sys, t: nat, o: Outcome)
    requires Move(d, t, o).Some? && d.tasks[t].finished.None? && Move(d, t, o).value.tasks[t].finished == Some(Cancelled)
    ensures d.tasks[t].pc.Operating?
  {
    match d.tasks[t].pc
    case Operating(_, _) =>
    case Starting(root, init) =>
      if !init.ClosingInit? && !init.LeavingInit? {
        InitFinishes(View(d, t), root, init, o);
      }
    case Nesting(nest) => NestFinishes(View(d, t), nest, o);
    case Riding =>
  }

  lemma FinishingPoint(d: Sys, t: nat, o: Outcome)
    requires Move(d, t, o).Some? && Drivers(Move(d, t, o).value) && HolderLeads(Move(d, t, o).value)
    requires d.tasks[t].pc.Operating? && d.tasks[t].finished.None? && Move(d, t, o).value.tasks[t].finished == Some(Cancelled)
    ensures Back(Move(d, t, o).value.tasks[t], Move(d, t, o).value.mem.state)
  {
    var pc := d.tasks[t].pc;
    FinishedThenRecorded(d, t, pc.root, pc.op, o);
    var d' := Move(d, t, o).value;
    assert d'.holder == Some(t);
  }

  // ----- The end of the call

  /** The step ends the call. */
  predicate Ends(d: Sys, a: Action, t: nat) {
    && Enabled(d, a) && t < |d.tasks| && t < |Next(d, a).value.tasks|
    && d.tasks[t].pc.Operating? && Next(d, a).value.tasks[t].pc.Done?
  }

  lemma OperatingElsewhere(s: Sys, a: Action, t: nat)
    requires Enabled(s, a) && t < |s.tasks| && !(a.Advance? && a.task == t) && !a.Crash? && s.tasks[t].pc.Operating?
    ensures t < |Next(s, a).value.tasks| && Next(s, a).value.tasks[t].pc == s.tasks[t].pc
  {
    if a.Advance? {
      MoveLeavesOthers(s, a.task, a.outcome, t);
    } else if IsEvent(a) {
      EventsElsewhere(s, a, t);
    } else {
      NewCallsElsewhere(s, a, t);
    }
  }

  lemma OperatingGoesOn(l: Local, root: Option<nat>, op: OpPoint, o: Outcome)
    requires OpStep(l, root, op, o).Some?
    ensures OpStep(l, root, op, o).value.task.pc.Operating?
  {
    if Recording(op) {
      RecordingGoesOn(l, op, op.stage, o);
    }
  }

  lemma RecordingGoesOn(l: Local, op: OpPoint, stage: SaveStage, o: Outcome)
    requires Recording(op)
    ensures OpRecording(l, op, stage, o).task.pc.Operating?
  {
  }

  /** Only its last point ends an operation. */
  lemma LastStep(d: Sys, t: nat, root: Option<nat>, op: OpPoint, o: Outcome)
    requires t < |d.tasks| && d.tasks[t].pc == Operating(root, op) && MoveOperator(d, t, root, op, o).Some?
    requires MoveOperator(d, t, root, op, o).value.tasks[t].pc.Done?
    ensures op.Leaving? && MoveOperator(d, t, root, op, o) == Some(MoveLeaving(d, t, op.returned))
  {
    if !op.Closing? && !op.Leaving? && !StartsRegion(op, o) {
      OperatingGoesOn(View(d, t), root, op, o);
    }
  }

  /** The state in which a call of an operation leaves the instance. */
  predicate LeavesAs(task: Task, found: RuntimeState, d: Sys) {
    match task.finished
    case Some(Succeeded) => task.pc == Done(true) && (d.mem.state == Ready || StopAsked(d))
    case Some(Failed) => task.pc == Done(false) && (d.mem.state == Error || StopAsked(d))
    case Some(Cancelled) =>
      && task.pc == Done(false)
      && (d.mem.state == found || StopAsked(d) || (d.mem.state == Error && task.saved != Some(Cancelled)))
    case _ => false
  }

  /**
    How every call of an operation ends: a success leaves the instance ready, a failure in error,
    and a call that was cancelled as it found it, or in error if even that could not be recorded;
    unless somebody asked to stop.
   */
  lemma OperationLeaves(journal: Journal, before: seq<Action>, operation: Operation, id: nat, later: seq<Action>, a: Action)
    requires Called(journal, before, operation, id, later)
    requires Nested(CalledThen(journal, before, operation, id, later), a)
    requires Ends(CalledThen(journal, before, operation, id, later), a, |CalledAt(journal, before).tasks|)
    ensures
      var t, d := |CalledAt(journal, before).tasks|, Next(CalledThen(journal, before, operation, id, later), a).value;
      LeavesAs(d.tasks[t], CalledAt(journal, before).mem.state, d)
  {
    CalledKnows(journal, before, operation, id, later);
    CallEnds(CalledThen(journal, before, operation, id, later), a, |CalledAt(journal, before).tasks|);
  }

  lemma CallEnds(d: Sys, a: Action, t: nat)
    requires Safe(d) && HolderLeads(d) && Waiters(d) && Asked(d) && Nested(d, a) && Ends(d, a, t)
    ensures LeavesAs(Next(d, a).value.tasks[t], d.tasks[t].past.found, Next(d, a).value)
  {
    NextKnows(d, a);
    if a.Advance? && a.task == t {
      CallLeaves(d, t, a.outcome);
    } else if !a.Crash? {
      OperatingElsewhere(d, a, t);
    }
  }

  lemma CallLeaves(d: Sys, t: nat, o: Outcome)
    requires Safe(d) && HolderLeads(d) && t < |d.tasks| && d.tasks[t].pc.Operating? && Move(d, t, o).Some?
    requires Move(d, t, o).value.tasks[t].pc.Done? && Safe(Move(d, t, o).value) && Asked(Move(d, t, o).value)
    ensures LeavesAs(Move(d, t, o).value.tasks[t], d.tasks[t].past.found, Move(d, t, o).value)
  {
    var pc := d.tasks[t].pc;
    LastStep(d, t, pc.root, pc.op, o);
    assert d.holder == Some(t);
    var d' := MoveLeaving(d, t, pc.op.returned);
    if d'.mem.state == Stopping {
      StoppingIsAsked(d');
    }
  }

  /** Cancelled from ready, on record, and nobody asked to stop: ordinary work is admitted again at once. */
  lemma CancelledReopens(journal: Journal, before: seq<Action>, operation: Operation, id: nat, later: seq<Action>, a: Action)
    requires Called(journal, before, operation, id, later)
    requires Nested(CalledThen(journal, before, operation, id, later), a)
    requires Ends(CalledThen(journal, before, operation, id, later), a, |CalledAt(journal, before).tasks|)
    ensures
      var t, d := |CalledAt(journal, before).tasks|, Next(CalledThen(journal, before, operation, id, later), a).value;
      var cancelled := d.tasks[t].finished == Some(Cancelled) && d.tasks[t].saved == Some(Cancelled);
      CalledAt(journal, before).mem.state == Ready && cancelled && d.mem.state != Stopping ==> AdmitLease(d, None).Some?
  {
    OperationLeaves(journal, before, operation, id, later, a);
    CalledKnows(journal, before, operation, id, later);
    NotBusyAfter(CalledThen(journal, before, operation, id, later), a, |CalledAt(journal, before).tasks|);
  }

  lemma NotBusyAfter(d: Sys, a: Action, t: nat)
    requires Safe(d) && Ends(d, a, t)
    ensures !Next(d, a).value.mem.busy
  {
    if a.Advance? && a.task == t {
      LastStep(d, t, d.tasks[t].pc.root, d.tasks[t].pc.op, a.outcome);
    } else if !a.Crash? {
      OperatingElsewhere(d, a, t);
    }
  }
}
