/**
  How initialization and waiting end, and that no call in flight is ever without a next step.
 */
module RuntimeEndings {
  import opened Wrappers
  import opened RuntimeTypes
  import opened RuntimeProtocol
  import opened RuntimeInvariant
  import opened RuntimeSafety
  import opened RuntimeTheorems

  // ----- Initialization

  /** What is known of the probe at each point of initialization. */
  predicate Probes(task: Task, init: InitPoint) {
    match init
    case ClosingInit(end) => ProbedAs(task, end)
    case LeavingInit(end) => ProbedAs(task, end)
    case Inspecting => task.start.probed.None? && task.bodyStarted
    case Preparing => task.start.probed.None? && task.bodyStarted
    case _ => task.start.probed.None?
  }

  predicate ProbedAs(task: Task, end: InitEnd) {
    match end
    case Inspected(state) => task.start.probed == Some(state) && task.bodyStarted
    case _ => task.start.probed.None?
  }

  predicate HolderProbes(s: Sys)
    requires HolderOk(s)
  {
    HolderPc(s).Starting? ==> Probes(s.tasks[s.holder.value], HolderPc(s).init)
  }

  lemma UnprobedAt(l: Local, root: Option<nat>, init: InitPoint)
    requires l.task.start.probed.None? && (init == Deciding || init == Normalising || init == ClosingInit(Broken))
    ensures InitAt(l, root, init).task.pc.Starting? && Probes(InitAt(l, root, init).task, InitAt(l, root, init).task.pc.init)
  {
  }

  lemma LoadingProbes(l: Local, root: Option<nat>)
    requires l.task.start.probed.None?
    ensures
      var l' := InitLoading(l, root);
      l'.task.pc.Starting? && Probes(l'.task, l'.task.pc.init)
  {
    var found := l.(task := l.task.(start := l.task.start.(loaded := Some(l.disk.visible))));
    match Load(l.disk.visible)
    case NoJob => UnprobedAt(found.(mem := l.mem.(job := None)), root, Deciding);
    case BadJournal => UnprobedAt(found, root, ClosingInit(Broken));
    case LoadedJob(job) => UnprobedAt(found.(mem := l.mem.(job := Some(job))), root, Normalising);
  }

  lemma RecordingProbes(l: Local, root: Option<nat>, stage: SaveStage, o: Outcome)
    requires l.task.start.probed.None?
    ensures
      var l' := InitRecording(l, root, stage, o);
      l'.task.pc.Starting? && Probes(l'.task, l'.task.pc.init)
  {
  }

  lemma InitStepProbes(l: Local, root: Option<nat>, init: InitPoint, o: Outcome)
    requires Probes(l.task, init) && InitStep(l, root, init, o).Some?
    ensures
      var l' := InitStep(l, root, init, o).value;
      l'.task.pc.Starting? && Probes(l'.task, l'.task.pc.init)
  {
    match init
    case Loading => LoadingProbes(l, root);
    case RecordingInterrupted(stage) => RecordingProbes(l, root, stage, o);
    case _ =>
  }

  lemma OthersProbe(s: Sys, s': Sys)
    requires HolderOk(s) && HolderOk(s') && HolderProbes(s)
    requires HolderPc(s').Starting? ==>
               && s'.holder == s.holder
               && var task, task' := s.tasks[s.holder.value], s'.tasks[s.holder.value];
                  task'.pc == task.pc && task'.bodyStarted == task.bodyStarted && task'.start.probed == task.start.probed
    ensures HolderProbes(s')
  {
  }

  lemma StarterProbes(s: Sys, t: nat, root: Option<nat>, init: InitPoint, o: Outcome)
    requires HolderOk(s) && HolderProbes(s) && s.holder == Some(t) && s.tasks[t].pc == Starting(root, init)
    requires MoveInitializer(s, t, root, init, o).Some? && HolderOk(MoveInitializer(s, t, root, init, o).value)
    ensures HolderProbes(MoveInitializer(s, t, root, init, o).value)
  {
    if !init.ClosingInit? && !init.LeavingInit? {
      InitStepProbes(View(s, t), root, init, o);
    }
  }

  lemma OperatorProbes(s: Sys, t: nat, root: Option<nat>, op: OpPoint, o: Outcome)
    requires Safe(s) && s.holder == Some(t) && s.tasks[t].pc == Operating(root, op) && MoveOperator(s, t, root, op, o).Some?
    requires HolderOk(MoveOperator(s, t, root, op, o).value)
    ensures HolderProbes(MoveOperator(s, t, root, op, o).value)
  {
    if !op.Closing? && !op.Leaving? && !StartsRegion(op, o) {
      OpStepKeeps(View(s, t), root, op, o);
    }
  }

  lemma NestedProbes(s: Sys, t: nat, nest: NestPoint, o: Outcome)
    requires Drivers(s) && HolderProbes(s) && t < |s.tasks| && s.tasks[t].pc == Nesting(nest) && HolderOk(MoveNested(s, t, nest, o))
    ensures HolderProbes(MoveNested(s, t, nest, o))
  {
    assert Frame(s.tasks[t].pc) && s.holder != Some(t);
    OthersProbe(s, MoveNested(s, t, nest, o));
  }

  lemma MoveProbes(s: Sys, t: nat, o: Outcome)
    requires Safe(s) && HolderProbes(s) && Move(s, t, o).Some? && HolderOk(Move(s, t, o).value)
    ensures HolderProbes(Move(s, t, o).value)
  {
    match s.tasks[t].pc
    case Operating(root, op) => OperatorProbes(s, t, root, op, o);
    case Starting(root, init) => StarterProbes(s, t, root, init, o);
    case Nesting(nest) => NestedProbes(s, t, nest, o);
    case Riding => OthersProbe(s, At(s, t, Done(!o.Fails?)));
  }

  lemma CallNestedProbes(s: Sys, p: nat, operation: Operation, id: nat)
    requires HolderOk(s) && HolderProbes(s) && CallNested(s, p, operation, id).Some? && HolderOk(CallNested(s, p, operation, id).value)
    ensures HolderProbes(CallNested(s, p, operation, id).value)
  {
    OthersProbe(s, CallNested(s, p, operation, id).value);
  }

  lemma CallDriverProbes(s: Sys, operation: Operation, id: nat)
    requires HolderOk(s) && CallDriver(s, operation, id).Some? && HolderOk(CallDriver(s, operation, id).value)
    ensures HolderProbes(CallDriver(s, operation, id).value)
  {
  }

  lemma CancelProbes(s: Sys, id: nat)
    requires HolderOk(s) && HolderProbes(s) && CancelJob(s, id).Some? && HolderOk(CancelJob(s, id).value)
    ensures HolderProbes(CancelJob(s, id).value)
  {
    OthersProbe(s, CancelJob(s, id).value);
  }

  lemma StopProbes(s: Sys)
    requires HolderOk(s) && HolderProbes(s) && Stop(s).Some? && HolderOk(Stop(s).value)
    ensures HolderProbes(Stop(s).value)
  {
    OthersProbe(s, Stop(s).value);
  }

  lemma SectionProbes(s: Sys, a: Action)
    requires HolderOk(s) && HolderProbes(s) && Enabled(s, a) && HolderOk(Next(s, a).value)
    requires a.DoClaim? || a.DoAdmit? || a.DoInspect? || a.EndLease? || a.CallUnnamed?
    ensures HolderProbes(Next(s, a).value)
  {
    OthersProbe(s, Next(s, a).value);
  }

  lemma WaiterProbes(s: Sys, t: nat, s': Sys)
    requires Drivers(s) && HolderProbes(s) && (WakeStopper(s, t) == Some(s') || GiveUpStop(s, t) == Some(s')) && HolderOk(s')
    ensures HolderProbes(s')
  {
    OthersProbe(s, s');
  }

  lemma StepProbes(s: Sys, a: Action)
    requires Safe(s) && HolderProbes(s) && Enabled(s, a) && HolderOk(Next(s, a).value)
    ensures HolderProbes(Next(s, a).value)
  {
    match a
    case Advance(t, o) => MoveProbes(s, t, o);
    case DoInitialize =>
    case CallOperation(Some(p), operation, id) => CallNestedProbes(s, p, operation, id);
    case CallOperation(None, operation, id) => CallDriverProbes(s, operation, id);
    case DoCancel(id) => CancelProbes(s, id);
    case DoStop => StopProbes(s);
    case Wake(t) => WaiterProbes(s, t, Next(s, a).value);
    case StopTimeout(t) => WaiterProbes(s, t, Next(s, a).value);
    case Crash(_) =>
    case _ => SectionProbes(s, a);
  }

  lemma {:induction false} RunProbes(s: Sys, actions: seq<Action>)
    requires Safe(s) && HolderProbes(s) && Runs(s, actions) && NestedRun(s, actions)
    ensures Safe(After(s, actions)) && HolderProbes(After(s, actions))
    decreases |actions|
  {
    if actions != [] {
      StepSafe(s, actions[0]);
      StepProbes(s, actions[0]);
      RunProbes(Next(s, actions[0]).value, actions[1..]);
    }
  }

  lemma StarterGoesOn(s: Sys, t: nat, root: Option<nat>, init: InitPoint, o: Outcome)
    requires t < |s.tasks| && s.tasks[t].pc == Starting(root, init) && MoveInitializer(s, t, root, init, o).Some?
    requires Safe(s) && s.holder == Some(t)
    ensures MoveInitializer(s, t, root, init, o).value.tasks[t].pc.Done? ==>
              init.LeavingInit? && MoveInitializer(s, t, root, init, o) == Some(MoveLeavingInit(s, t, init.end))
  {
    if !init.ClosingInit? && !init.LeavingInit? {
      InitStepKeeps(View(s, t), root, init, o);
    }
  }

  /**
    In every run, the step that ends an initialization leaves the instance as the probe reported it,
    and in error if the probe reported nothing, unless the runtime is stopping; it has reported
    something only if `prepare` was reached.
   */
  lemma InitializationLeaves(journal: Journal, actions: seq<Action>, t: nat, o: Outcome)
    requires Runs(Boot(journal), actions) && NestedRun(Boot(journal), actions)
    requires t < |After(Boot(journal), actions).tasks| && After(Boot(journal), actions).tasks[t].pc.Starting?
    requires Move(After(Boot(journal), actions), t, o).Some? && Move(After(Boot(journal), actions), t, o).value.tasks[t].pc.Done?
    ensures
      var s := Move(After(Boot(journal), actions), t, o).value;
      var probed := s.tasks[t].start.probed;
      && !s.mem.busy && !s.mem.initializing
      && (s.mem.state == Stopping || s.mem.state == if probed.Some? then probed.value else Error)
      && (probed.Some? ==> s.tasks[t].bodyStarted)
  {
    BootInvariant(journal);
    RunProbes(Boot(journal), actions);
    StarterLeaves(After(Boot(journal), actions), t, o);
  }

  lemma StarterLeaves(s: Sys, t: nat, o: Outcome)
    requires Safe(s) && HolderProbes(s) && t < |s.tasks| && s.tasks[t].pc.Starting?
    requires Move(s, t, o).Some? && Move(s, t, o).value.tasks[t].pc.Done?
    ensures
      var s' := Move(s, t, o).value;
      var probed := s'.tasks[t].start.probed;
      && !s'.mem.busy && !s'.mem.initializing
      && (s'.mem.state == Stopping || s'.mem.state == if probed.Some? then probed.value else Error)
      && (probed.Some? ==> s'.tasks[t].bodyStarted)
  {
    assert s.holder == Some(t);
    StarterGoesOn(s, t, s.tasks[t].pc.root, s.tasks[t].pc.init, o);
  }

  /** Whatever initialization runs that is not its own may raise: the locks, the journal, `prepare`, the probe. */
  predicate MayRaise(init: InitPoint) { init.Locking? || init.Loading? || init.Preparing? || init.Inspecting? }

  /** If it does, initialization goes on to end without having heard from the probe. */
  lemma RaisedUnprobed(s: Sys, t: nat, root: Option<nat>, init: InitPoint, os: bool)
    requires Safe(s) && HolderProbes(s) && s.holder == Some(t) && s.tasks[t].pc == Starting(root, init) && MayRaise(init)
    ensures Move(s, t, Fails(os)) == Some(Put(s, t, InitStep(View(s, t), root, init, Fails(os)).value))
    ensures
      var s' := Move(s, t, Fails(os)).value;
      s'.tasks[t].pc == Starting(root, ClosingInit(Broken)) && s'.tasks[t].start.probed.None?
  {
  }

  // ----- Waiting

  /** A waiting `stop` wakes up exactly when no counted lease is live and nobody drives; only till then can it give up. */
  lemma WaitersExactly(s: Sys, t: nat)
    requires Safe(s) && t < |s.tasks| && s.tasks[t].pc.StopWaiting?
    ensures
      var idle := s.holder.None? && !s.wedged && forall l :: 0 <= l < |s.leases| && s.leases[l].active ==> s.leases[l].kind.Root?;
      (WakeStopper(s, t).Some? <==> idle) && (GiveUpStop(s, t).Some? <==> !idle)
  {
    LiveCountZero(s.leases);
  }

  // ----- Progress

  /** A call that goes on by its own steps. */
  predicate InFlight(pc: Pc) { pc.Operating? || pc.Starting? || pc.Nesting? || pc.Riding? }

  /** Whatever a call in flight is waiting for may fail, and it goes on. */
  lemma MayAlwaysFail(s: Sys, t: nat, os: bool)
    requires Safe(s) && t < |s.tasks| && InFlight(s.tasks[t].pc)
    ensures Enabled(s, Advance(t, Fails(os)))
  {
    match s.tasks[t].pc
    case Operating(root, op) => OperatorEnabled(s, t, root, op, Fails(os));
    case Starting(root, init) => StarterEnabled(s, t, root, init, Fails(os));
    case _ =>
  }

  /** And it may go well, except that a drain waits as long as a counted lease is live and nobody calls it off. */
  lemma GoesOn(s: Sys, t: nat)
    requires Safe(s) && t < |s.tasks| && InFlight(s.tasks[t].pc)
    ensures Enabled(s, Advance(t, Reports(Ready))) <==> !Waits(s, s.tasks[t].pc)
  {
    match s.tasks[t].pc
    case Operating(root, op) => OperatorEnabled(s, t, root, op, Reports(Ready));
    case Starting(root, init) => StarterEnabled(s, t, root, init, Reports(Ready));
    case _ =>
  }

  predicate Waits(s: Sys, pc: Pc) {
    && pc.Operating? && pc.op.Draining? && s.mem.state != Stopping
    && !(s.mem.job.Some? && s.mem.job.value.status == Cancelled)
    && exists l :: 0 <= l < |s.leases| && s.leases[l].active && !s.leases[l].kind.Root?
  }

  lemma OperatorEnabled(s: Sys, t: nat, root: Option<nat>, op: OpPoint, o: Outcome)
    requires Safe(s) && t < |s.tasks| && s.tasks[t].pc == Operating(root, op)
    ensures MoveOperator(s, t, root, op, o).Some? <==> o.Fails? || !Waits(s, s.tasks[t].pc)
  {
    assert s.holder == Some(t);
    if op.Draining? {
      LiveCountZero(s.leases);
    }
  }

  lemma StarterEnabled(s: Sys, t: nat, root: Option<nat>, init: InitPoint, o: Outcome)
    requires Safe(s) && t < |s.tasks| && s.tasks[t].pc == Starting(root, init) && (o.Fails? || o == Reports(Ready))
    ensures MoveInitializer(s, t, root, init, o).Some?
  {
    assert s.holder == Some(t);
  }
}
