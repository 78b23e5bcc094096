/**
  What initialization makes of the journal it finds, whatever else happens meanwhile. `_load_job`
  works outside the condition, so a `cancel` may come between loading the record and the test of
  its status.
 */
module RuntimeLoading {
  import opened Wrappers
  import opened RuntimeTypes
  import opened RuntimeProtocol
  import opened RuntimeInvariant
  import opened RuntimeSafety
  import opened RuntimeTheorems

  /** A job that was only waiting and owes nothing. */
  predicate OnlyWaited(journal: Journal) {
    journal.Record? && journal.status == Waiting && journal.recovery == Some(false)
  }

  /** What initialization goes on with: a journal that demands nothing, or one cancelled in time. */
  predicate GoesOn(start: Start) {
    start.loaded.Some? && (!DemandsRecovery(start.loaded.value) || (OnlyWaited(start.loaded.value) && start.spared))
  }

  /** `prepare` was reached exactly when nothing failed before it and the journal allowed it. */
  predicate Decided(task: Task) {
    task.bodyStarted <==> !task.start.broke && GoesOn(task.start)
  }

  predicate NotYet(task: Task) { !task.bodyStarted && !task.start.broke }

  /** The job in memory is the loaded one, or that one cancelled. */
  predicate HoldsLoaded(start: Start, job: Option<Job>) {
    && start.loaded.Some? && Load(start.loaded.value).LoadedJob?
    && var loaded := Load(start.loaded.value).job;
       if start.spared then loaded.status == Waiting && job == Some(loaded.(status := Cancelled)) else job == Some(loaded)
  }

  /** What is known at each point of initialization. */
  predicate StartHistory(task: Task, init: InitPoint, job: Option<Job>) {
    match init
    case Locking => NotYet(task) && task.start == Start(None, false, false, None)
    case Loading => NotYet(task) && task.start == Start(None, false, false, None)
    case Normalising => NotYet(task) && HoldsLoaded(task.start, job)
    case FinishingInterrupted => NotYet(task) && task.start.loaded.Some? && !GoesOn(task.start) && job.Some?
    case RecordingInterrupted(_) => NotYet(task) && task.start.loaded.Some? && !GoesOn(task.start) && JobRecovers(job)
    case Deciding => NotYet(task) && task.start.loaded.Some? && (JobRecovers(job) <==> !GoesOn(task.start))
    case _ => Decided(task) && (Prepares(init) ==> task.bodyStarted)
  }

  predicate Prepares(init: InitPoint) { init.Preparing? || init.Inspecting? }

  /** The initialization under way knows what it found, and every one that is over has decided by it. */
  predicate Loads(s: Sys)
    requires HolderOk(s)
  {
    && (HolderPc(s).Starting? ==> StartHistory(s.tasks[s.holder.value], HolderPc(s).init, s.mem.job))
    && (forall t :: 0 <= t < |s.tasks| && s.tasks[t].kind.Initializer? && s.tasks[t].pc.Done? ==> Decided(s.tasks[t]))
    && (forall t :: 0 <= t < |s.tasks| ==> KindFits(s.tasks[t]))
  }

  /** Exactly initializations are at the points of initialization. */
  predicate KindFits(task: Task) {
    && (task.pc.Starting? ==> task.kind.Initializer?)
    && (task.kind.Initializer? ==> task.pc.Starting? || task.pc.Done? || task.pc.Dead?)
  }

  /** Not an initialization, before and after a step. */
  predicate Elsewhere(task: Task) { !task.kind.Initializer? && !task.pc.Starting? }

  // ----- Steps of initialization

  /** Only the last two points decide; a job that was tested as unfinished cannot be spared any more. */
  lemma NormalisingLoads(l: Local, root: Option<nat>, o: Outcome)
    requires StartHistory(l.task, Normalising, l.mem.job)
    ensures
      var l' := InitStep(l, root, Normalising, o).value;
      l'.task.pc.Starting? && StartHistory(l'.task, l'.task.pc.init, l'.mem.job)
  {
  }

  lemma FoundLoads(l: Local, root: Option<nat>)
    requires StartHistory(l.task, Loading, l.mem.job)
    ensures
      var l' := InitLoading(l, root);
      l'.task.pc.Starting? && StartHistory(l'.task, l'.task.pc.init, l'.mem.job)
  {
    match Load(l.disk.visible)
    case NoJob => assert !DemandsRecovery(l.disk.visible);
    case BadJournal => assert DemandsRecovery(l.disk.visible) && !OnlyWaited(l.disk.visible);
    case LoadedJob(_) =>
  }

  lemma LoadingLoads(l: Local, root: Option<nat>, o: Outcome)
    requires StartHistory(l.task, Loading, l.mem.job)
    ensures
      var l' := InitStep(l, root, Loading, o).value;
      l'.task.pc.Starting? && StartHistory(l'.task, l'.task.pc.init, l'.mem.job)
  {
    if !o.Fails? {
      FoundLoads(l, root);
    }
  }

  lemma SavingLoads(l: Local, root: Option<nat>, stage: SaveStage, o: Outcome)
    requires StartHistory(l.task, RecordingInterrupted(stage), l.mem.job) && !Save(l.mem, l.disk, stage, o).Raised?
    ensures
      var l' := InitRecording(l, root, stage, o);
      l'.task.pc.Starting? && StartHistory(l'.task, l'.task.pc.init, l'.mem.job)
  {
  }

  lemma RaisedLoads(l: Local, root: Option<nat>, os: bool)
    requires l.task.start.loaded.Some? && !l.task.bodyStarted
    ensures
      var l' := InitBreaks(l.(mem := ErrorIf(l.mem, os)), root);
      l'.task.pc.Starting? && StartHistory(l'.task, l'.task.pc.init, l'.mem.job)
  {
  }

  lemma RecordingLoads(l: Local, root: Option<nat>, stage: SaveStage, o: Outcome)
    requires StartHistory(l.task, RecordingInterrupted(stage), l.mem.job)
    ensures
      var l' := InitRecording(l, root, stage, o);
      l'.task.pc.Starting? && StartHistory(l'.task, l'.task.pc.init, l'.mem.job)
  {
    match Save(l.mem, l.disk, stage, o)
    case Raised(os) => RaisedLoads(l, root, os);
    case _ => SavingLoads(l, root, stage, o);
  }

  lemma InitStepLoads(l: Local, root: Option<nat>, init: InitPoint, o: Outcome)
    requires StartHistory(l.task, init, l.mem.job) && InitStep(l, root, init, o).Some?
    ensures
      var l' := InitStep(l, root, init, o).value;
      l'.task.pc.Starting? && l'.task.kind == l.task.kind && StartHistory(l'.task, l'.task.pc.init, l'.mem.job)
  {
    match init
    case Loading => LoadingLoads(l, root, o);
    case Normalising => NormalisingLoads(l, root, o);
    case RecordingInterrupted(stage) => RecordingLoads(l, root, stage, o);
    case _ =>
  }

  // ----- Steps of the system

  /** Calls that are not initializations come, go and move on. */
  lemma OthersLoad(s: Sys, s': Sys)
    requires HolderOk(s) && HolderOk(s') && Loads(s) && |s.tasks| <= |s'.tasks|
    requires HolderPc(s').Starting? ==>
               && s'.holder == s.holder && s'.tasks[s.holder.value] == s.tasks[s.holder.value]
               && (s'.mem.job == s.mem.job || HolderPc(s).init.Preparing?)
    requires forall t :: 0 <= t < |s.tasks| && s'.tasks[t] != s.tasks[t] ==> Elsewhere(s'.tasks[t])
    requires forall t :: |s.tasks| <= t < |s'.tasks| ==> Elsewhere(s'.tasks[t])
    ensures Loads(s')
  {
  }

  lemma RecordingStays(l: Local, op: OpPoint, stage: SaveStage, o: Outcome)
    requires Recording(op)
    ensures OpRecording(l, op, stage, o).task.pc.Operating? && OpRecording(l, op, stage, o).task.kind == l.task.kind
  {
  }

  lemma OpStepStays(l: Local, root: Option<nat>, op: OpPoint, o: Outcome)
    requires OpStep(l, root, op, o).Some?
    ensures OpStep(l, root, op, o).value.task.pc.Operating? && OpStep(l, root, op, o).value.task.kind == l.task.kind
  {
    if Recording(op) {
      RecordingStays(l, op, op.stage, o);
    } else if op.Draining? {
      assert OpStep(l, root, op, o) == OpDraining(l, op.before, o);
    }
  }

  /** A step of an operation ends elsewhere, and no initialization holds `busy` then. */
  lemma OperatorElsewhere(s: Sys, t: nat, root: Option<nat>, op: OpPoint, o: Outcome)
    requires t < |s.tasks| && s.holder == Some(t) && s.tasks[t].pc == Operating(root, op) && !s.tasks[t].kind.Initializer?
    requires MoveOperator(s, t, root, op, o).Some?
    ensures
      var s' := MoveOperator(s, t, root, op, o).value;
      && |s'.tasks| == |s.tasks| && (forall u :: 0 <= u < |s.tasks| && u != t ==> s'.tasks[u] == s.tasks[u])
      && Elsewhere(s'.tasks[t])
      && (s'.holder == None || (s'.holder == Some(t) && s'.tasks[t].pc.Operating?))
  {
    if !op.Closing? && !op.Leaving? && !StartsRegion(op, o) {
      OpStepStays(View(s, t), root, op, o);
    }
  }

  lemma OperatorLoads(s: Sys, t: nat, root: Option<nat>, op: OpPoint, o: Outcome)
    requires HolderOk(s) && Loads(s) && s.holder == Some(t) && s.tasks[t].pc == Operating(root, op)
    requires MoveOperator(s, t, root, op, o).Some?
    ensures HolderOk(MoveOperator(s, t, root, op, o).value) && Loads(MoveOperator(s, t, root, op, o).value)
  {
    assert KindFits(s.tasks[t]);
    OperatorElsewhere(s, t, root, op, o);
    OthersLoad(s, MoveOperator(s, t, root, op, o).value);
  }

  /** One initialization goes on. */
  lemma StarterLoads(s: Sys, t: nat, task: Task, s': Sys)
    requires HolderOk(s) && Loads(s) && s.holder == Some(t) && s.tasks[t].pc.Starting?
    requires s'.tasks == s.tasks[t := task] && task.kind == s.tasks[t].kind
    requires if task.pc.Starting? then s'.holder == Some(t) && StartHistory(task, task.pc.init, s'.mem.job)
             else s'.holder == None && task.pc.Done? && Decided(task)
    ensures HolderOk(s') && Loads(s')
  {
    assert KindFits(s.tasks[t]);
  }

  lemma InitializerLoads(s: Sys, t: nat, root: Option<nat>, init: InitPoint, o: Outcome)
    requires HolderOk(s) && Loads(s) && s.holder == Some(t) && s.tasks[t].pc == Starting(root, init)
    requires MoveInitializer(s, t, root, init, o).Some?
    ensures HolderOk(MoveInitializer(s, t, root, init, o).value) && Loads(MoveInitializer(s, t, root, init, o).value)
  {
    var s' := MoveInitializer(s, t, root, init, o).value;
    if !init.ClosingInit? && !init.LeavingInit? {
      InitStepLoads(View(s, t), root, init, o);
    }
    StarterLoads(s, t, s'.tasks[t], s');
  }

  lemma NestStepStays(l: Local, nest: NestPoint, o: Outcome)
    ensures Frame(NestStep(l, nest, o).task.pc) || NestStep(l, nest, o).task.pc.Done?
    ensures NestStep(l, nest, o).task.kind == l.task.kind
  {
  }

  lemma NestedLoads(s: Sys, t: nat, nest: NestPoint, o: Outcome)
    requires Drivers(s) && Loads(s) && t < |s.tasks| && s.tasks[t].pc == Nesting(nest)
    ensures HolderOk(MoveNested(s, t, nest, o)) && Loads(MoveNested(s, t, nest, o))
  {
    assert KindFits(s.tasks[t]) && Frame(s.tasks[t].pc);
    NestStepStays(View(s, t), nest, o);
    OthersLoad(s, MoveNested(s, t, nest, o));
  }

  lemma MoveLoads(s: Sys, t: nat, o: Outcome)
    requires Drivers(s) && Loads(s) && Move(s, t, o).Some?
    ensures HolderOk(Move(s, t, o).value) && Loads(Move(s, t, o).value)
  {
    match s.tasks[t].pc
    case Operating(root, op) => OperatorLoads(s, t, root, op, o);
    case Starting(root, init) => InitializerLoads(s, t, root, init, o);
    case Nesting(nest) => NestedLoads(s, t, nest, o);
    case Riding =>
      assert KindFits(s.tasks[t]);
      OthersLoad(s, At(s, t, Done(!o.Fails?)));
  }

  /** An accepted `cancel` spares a loaded record that was tested neither for its status nor its demand yet. */
  lemma CancelSpares(task: Task, init: InitPoint, root: Option<nat>, m: Memory, id: nat)
    requires task.pc == Starting(root, init) && task.kind.Initializer?
    requires StartHistory(task, init, m.job) && RuntimeTypes.Cancel(m, id).Some?
    ensures StartHistory(CancelSeen(task), init, RuntimeTypes.Cancel(m, id).value.job)
  {
  }

  lemma CancelLoads(s: Sys, id: nat)
    requires HolderOk(s) && Loads(s) && CancelJob(s, id).Some?
    ensures HolderOk(CancelJob(s, id).value) && Loads(CancelJob(s, id).value)
  {
    if s.holder.Some? {
      var task := s.tasks[s.holder.value];
      assert KindFits(task);
      if task.pc.Starting? {
        CancelSpares(task, task.pc.init, task.pc.root, s.mem, id);
        StarterLoads(s, s.holder.value, CancelSeen(task), CancelJob(s, id).value);
      } else {
        OthersLoad(s, CancelJob(s, id).value);
      }
    }
  }

  lemma InitializeLoads(s: Sys)
    requires HolderOk(s) && Loads(s) && Initialize(s).Some?
    ensures HolderOk(Initialize(s).value) && Loads(Initialize(s).value)
  {
  }

  lemma WaiterLoads(s: Sys, t: nat, s': Sys)
    requires HolderOk(s) && Loads(s) && (WakeStopper(s, t) == Some(s') || GiveUpStop(s, t) == Some(s'))
    ensures HolderOk(s') && Loads(s')
  {
    assert KindFits(s.tasks[t]);
    OthersLoad(s, s');
  }

  lemma CallNestedLoads(s: Sys, p: nat, operation: Operation, id: nat)
    requires HolderOk(s) && Loads(s) && CallNested(s, p, operation, id).Some?
    ensures HolderOk(CallNested(s, p, operation, id).value) && Loads(CallNested(s, p, operation, id).value)
  {
    OthersLoad(s, CallNested(s, p, operation, id).value);
  }

  lemma CallDriverLoads(s: Sys, operation: Operation, id: nat)
    requires HolderOk(s) && Loads(s) && CallDriver(s, operation, id).Some?
    ensures HolderOk(CallDriver(s, operation, id).value) && Loads(CallDriver(s, operation, id).value)
  {
    OthersLoad(s, CallDriver(s, operation, id).value);
  }

  lemma StopLoads(s: Sys)
    requires HolderOk(s) && Loads(s) && Stop(s).Some?
    ensures HolderOk(Stop(s).value) && Loads(Stop(s).value)
  {
    OthersLoad(s, Stop(s).value);
  }

  /** Calls that neither spawn nor move a task, nor touch the job. */
  lemma SectionLoads(s: Sys, a: Action)
    requires HolderOk(s) && Loads(s) && Enabled(s, a)
    requires a.DoClaim? || a.DoAdmit? || a.DoInspect? || a.EndLease? || a.CallUnnamed?
    ensures HolderOk(Next(s, a).value) && Loads(Next(s, a).value)
  {
    OthersLoad(s, Next(s, a).value);
  }

  lemma StepLoads(s: Sys, a: Action)
    requires Drivers(s) && Loads(s) && Enabled(s, a)
    ensures HolderOk(Next(s, a).value) && Loads(Next(s, a).value)
  {
    match a
    case Advance(t, o) => MoveLoads(s, t, o);
    case DoCancel(id) => CancelLoads(s, id);
    case DoInitialize => InitializeLoads(s);
    case Wake(t) => WaiterLoads(s, t, Next(s, a).value);
    case StopTimeout(t) => WaiterLoads(s, t, Next(s, a).value);
    case CallOperation(Some(p), operation, id) => CallNestedLoads(s, p, operation, id);
    case CallOperation(None, operation, id) => CallDriverLoads(s, operation, id);
    case DoStop => StopLoads(s);
    case Crash(_) =>
    case _ => SectionLoads(s, a);
  }

  lemma {:induction false} RunLoads(s: Sys, actions: seq<Action>)
    requires Safe(s) && Loads(s) && Runs(s, actions) && NestedRun(s, actions)
    ensures Safe(After(s, actions)) && Loads(After(s, actions))
    decreases |actions|
  {
    if actions != [] {
      StepSafe(s, actions[0]);
      StepLoads(s, actions[0]);
      RunLoads(Next(s, actions[0]).value, actions[1..]);
    }
  }

  /** Past the point at which initialization decides whether to prepare the instance. */
  predicate PastDecision(pc: Pc) {
    match pc
    case Starting(_, Locking) => false
    case Starting(_, Loading) => false
    case Starting(_, Normalising) => false
    case Starting(_, FinishingInterrupted) => false
    case Starting(_, RecordingInterrupted(_)) => false
    case Starting(_, Deciding) => false
    case Starting(_, _) => true
    case Done(_) => true
    case _ => false
  }

  /**
    In every run, an initialization has reached `prepare` if and only if nothing failed before it
    and the journal it loaded demands no recovery, or was left by a job that only waited, owed
    nothing, and was cancelled between the loading and the test of its status.
   */
  lemma StartDecides(journal: Journal, actions: seq<Action>, t: nat)
    requires Runs(Boot(journal), actions) && NestedRun(Boot(journal), actions)
    requires t < |After(Boot(journal), actions).tasks| && After(Boot(journal), actions).tasks[t].kind.Initializer?
    requires PastDecision(After(Boot(journal), actions).tasks[t].pc)
    ensures
      var task := After(Boot(journal), actions).tasks[t];
      var found := task.start.loaded;
      task.bodyStarted <==>
        && !task.start.broke && found.Some?
        && (!DemandsRecovery(found.value) || (OnlyWaited(found.value) && task.start.spared))
  {
    BootInvariant(journal);
    RunLoads(Boot(journal), actions);
    var s := After(Boot(journal), actions);
    if s.tasks[t].pc.Starting? {
      assert s.holder == Some(t);
    }
  }
}
