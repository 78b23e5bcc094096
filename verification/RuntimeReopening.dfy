/**
  The other half of the journal's guarantee: what was repaired is open again, and a journal
  that demands nothing does not keep an instance shut.
 */
module RuntimeReopening {
  import opened Wrappers
  import opened RuntimeTypes
  import opened RuntimeProtocol
  import opened RuntimeInvariant
  import opened RuntimeSafety
  import opened RuntimeTheorems

  // ----- A recorded success

  predicate JobIsClear(job: Option<Job>) { job.Some? && !job.value.requiresRecovery && job.value.status == Succeeded }

  /** From the finished job to the end of the operation, the success is all that is being written. */
  predicate Clearing(l: Local, op: OpPoint) {
    match op
    case RecordingSucceeded(stage) => JobIsClear(l.mem.job) && (stage.Replace? || stage.Sync? ==> stage.job == l.mem.job)
    case Leaving(returned) => returned ==> JobIsClear(l.mem.job) && l.disk == Disk(Encode(l.mem.job), {Encode(l.mem.job)})
    case _ => true
  }

  predicate HolderClears(s: Sys)
    requires HolderOk(s)
  {
    HolderPc(s).Operating? ==> Clearing(View(s, s.holder.value), HolderPc(s).op)
  }

  lemma RecordingClears(l: Local, op: OpPoint, o: Outcome)
    requires Recording(op) && Clearing(l, op) && !StartsRegion(op, o)
    ensures
      var l' := OpRecording(l, op, op.stage, o);
      l'.task.pc.Operating? ==> Clearing(l', l'.task.pc.op)
  {
  }

  lemma OpStepClears(l: Local, root: Option<nat>, op: OpPoint, o: Outcome)
    requires OpState(l.mem, root, op) && Clearing(l, op) && OpStep(l, root, op, o).Some? && !StartsRegion(op, o)
    ensures
      var l' := OpStep(l, root, op, o).value;
      l'.task.pc.Operating? ==> Clearing(l', l'.task.pc.op)
  {
    if Recording(op) {
      RecordingClears(l, op, o);
    }
  }

  /** Steps that leave the driver's point alone, and its job and disk once it has succeeded. */
  lemma OthersClear(s: Sys, s': Sys)
    requires HolderOk(s) && HolderOk(s') && HolderClears(s)
    requires s'.holder == s.holder && s'.disk == s.disk
    requires s.holder.Some? ==> s'.tasks[s.holder.value].pc == s.tasks[s.holder.value].pc
    requires s'.mem.job == s.mem.job || !JobIsClear(s.mem.job)
    ensures HolderClears(s')
  {
  }

  lemma OperatorClears(s: Sys, t: nat, root: Option<nat>, op: OpPoint, o: Outcome)
    requires Safe(s) && HolderClears(s) && s.holder == Some(t) && s.tasks[t].pc == Operating(root, op)
    requires MoveOperator(s, t, root, op, o).Some? && HolderOk(MoveOperator(s, t, root, op, o).value)
    ensures HolderClears(MoveOperator(s, t, root, op, o).value)
  {
    if !op.Closing? && !op.Leaving? && !StartsRegion(op, o) {
      OpStepClears(View(s, t), root, op, o);
    }
  }

  lemma MoveClears(s: Sys, t: nat, o: Outcome)
    requires Safe(s) && HolderClears(s) && Move(s, t, o).Some? && Safe(Move(s, t, o).value)
    ensures HolderClears(Move(s, t, o).value)
  {
    match s.tasks[t].pc
    case Operating(root, op) => OperatorClears(s, t, root, op, o);
    case Starting(root, init) => InitializerClears(s, t, root, init, o);
    case Nesting(nest) =>
    case Riding => OthersClear(s, At(s, t, Done(!o.Fails?)));
  }

  lemma InitializerClears(s: Sys, t: nat, root: Option<nat>, init: InitPoint, o: Outcome)
    requires Safe(s) && s.holder == Some(t) && s.tasks[t].pc == Starting(root, init)
    requires MoveInitializer(s, t, root, init, o).Some? && HolderOk(MoveInitializer(s, t, root, init, o).value)
    ensures HolderClears(MoveInitializer(s, t, root, init, o).value)
  {
    if !init.ClosingInit? && !init.LeavingInit? {
      InitStepKeeps(View(s, t), root, init, o);
    }
  }

  lemma CallDriverClears(s: Sys, operation: Operation, id: nat)
    requires HolderOk(s) && CallDriver(s, operation, id).Some? && HolderOk(CallDriver(s, operation, id).value)
    ensures HolderClears(CallDriver(s, operation, id).value)
  {
  }

  lemma InitializeClears(s: Sys)
    requires HolderOk(s) && Initialize(s).Some? && HolderOk(Initialize(s).value)
    ensures HolderClears(Initialize(s).value)
  {
  }

  lemma CancelClears(s: Sys, id: nat)
    requires HolderOk(s) && HolderClears(s) && CancelJob(s, id).Some? && HolderOk(CancelJob(s, id).value)
    ensures HolderClears(CancelJob(s, id).value)
  {
    OthersClear(s, CancelJob(s, id).value);
  }

  lemma CallNestedClears(s: Sys, p: nat, operation: Operation, id: nat)
    requires HolderOk(s) && HolderClears(s) && CallNested(s, p, operation, id).Some? && HolderOk(CallNested(s, p, operation, id).value)
    ensures HolderClears(CallNested(s, p, operation, id).value)
  {
    OthersClear(s, CallNested(s, p, operation, id).value);
  }

  lemma StopClears(s: Sys, a: Action)
    requires HolderOk(s) && HolderClears(s) && Enabled(s, a) && HolderOk(Next(s, a).value)
    requires a.DoStop? || a.Wake? || a.StopTimeout?
    ensures HolderClears(Next(s, a).value)
  {
    OthersClear(s, Next(s, a).value);
  }

  lemma SectionClears(s: Sys, a: Action)
    requires HolderOk(s) && HolderClears(s) && Enabled(s, a) && HolderOk(Next(s, a).value)
    requires a.DoClaim? || a.CallUnnamed? || a.DoAdmit? || a.DoInspect? || a.EndLease?
    ensures HolderClears(Next(s, a).value)
  {
    OthersClear(s, Next(s, a).value);
  }

  lemma StepClears(s: Sys, a: Action)
    requires Safe(s) && HolderClears(s) && Enabled(s, a) && Safe(Next(s, a).value)
    ensures HolderClears(Next(s, a).value)
  {
    match a
    case Advance(t, o) => MoveClears(s, t, o);
    case Crash(_) =>
    case DoInitialize => InitializeClears(s);
    case CallOperation(None, operation, id) => CallDriverClears(s, operation, id);
    case CallOperation(Some(p), operation, id) => CallNestedClears(s, p, operation, id);
    case DoCancel(id) => CancelClears(s, id);
    case DoStop => StopClears(s, a);
    case Wake(_) => StopClears(s, a);
    case StopTimeout(_) => StopClears(s, a);
    case _ => SectionClears(s, a);
  }

  lemma {:induction false} RunClears(s: Sys, actions: seq<Action>)
    requires Safe(s) && HolderClears(s) && Runs(s, actions) && NestedRun(s, actions)
    ensures Safe(After(s, actions)) && HolderClears(After(s, actions))
    decreases |actions|
  {
    if actions != [] {
      StepSafe(s, actions[0]);
      StepClears(s, actions[0]);
      RunClears(Next(s, actions[0]).value, actions[1..]);
    }
  }

  /**
    When an operation returns, its success is the only record a crash may leave and demands
    nothing, and unless the runtime is stopping ordinary work is admitted again at once.
   */
  lemma SuccessReopens(journal: Journal, actions: seq<Action>, t: nat)
    requires Runs(Boot(journal), actions) && NestedRun(Boot(journal), actions)
    requires t < |After(Boot(journal), actions).tasks|
    requires After(Boot(journal), actions).tasks[t].pc.Operating? && After(Boot(journal), actions).tasks[t].pc.op == Leaving(true)
    ensures
      var s := After(Boot(journal), actions);
      && s.disk.maybe == {s.disk.visible} && !DemandsRecovery(s.disk.visible)
      && Next(s, Advance(t, Fine)) == Some(MoveLeaving(s, t, true))
      && (s.mem.state != Stopping ==> AdmitLease(MoveLeaving(s, t, true), None).Some?)
  {
    BootInvariant(journal);
    RunClears(Boot(journal), actions);
    LeavingReopens(After(Boot(journal), actions), t);
  }

  lemma LeavingReopens(s: Sys, t: nat)
    requires Safe(s) && HolderClears(s) && t < |s.tasks| && s.tasks[t].pc.Operating? && s.tasks[t].pc.op == Leaving(true)
    ensures s.disk.maybe == {s.disk.visible} && !DemandsRecovery(s.disk.visible)
    ensures Next(s, Advance(t, Fine)) == Some(MoveLeaving(s, t, true))
    ensures s.mem.state != Stopping ==> AdmitLease(MoveLeaving(s, t, true), None).Some?
  {
    assert s.holder == Some(t);
  }

  // ----- What initialization makes of a journal

  /** Steps of initialization in which nothing fails. */
  function Undisturbed(l: Local, n: nat): Option<Local>
    decreases n
  {
    if n == 0 then Some(l)
    else if !l.task.pc.Starting? then None
    else
      var next := InitStep(l, l.task.pc.root, l.task.pc.init, Fine);
      if next.None? then None else Undisturbed(next.value, n - 1)
  }

  lemma UndisturbedStep(l: Local, root: Option<nat>, init: InitPoint, l': Local, n: nat)
    requires l.task.pc == Starting(root, init) && InitStep(l, root, init, Fine) == Some(l')
    ensures Undisturbed(l, n + 1) == Undisturbed(l', n)
  {
  }

  /** A record is written back without trouble. */
  lemma RecordingRuns(l: Local, root: Option<nat>, n: nat)
    requires l.task.pc == Starting(root, RecordingInterrupted(Snapshot))
    ensures Undisturbed(l, n + 3) == Undisturbed(InitAt(l.(disk := Disk(Encode(l.mem.job), {Encode(l.mem.job)})), root, Deciding), n)
  {
    var record := Encode(l.mem.job);
    var l1 := InitAt(l, root, RecordingInterrupted(Replace(l.mem.job)));
    var l2 := InitAt(l.(disk := Disk(record, l.disk.maybe + {record})), root, RecordingInterrupted(Sync(l.mem.job)));
    UndisturbedStep(l, root, RecordingInterrupted(Snapshot), l1, n + 2);
    UndisturbedStep(l1, root, RecordingInterrupted(Replace(l.mem.job)), l2, n + 1);
    UndisturbedStep(l2, root, RecordingInterrupted(Sync(l.mem.job)), InitAt(l.(disk := Disk(record, {record})), root, Deciding), n);
  }

  lemma InterruptedRecord(m: Memory)
    requires m.job.Some?
    ensures
      var job := FinishJob(m, Interrupted).job;
      job.Some? && job.value.requiresRecovery && Encode(job) == Record(m.job.value.id, m.job.value.operation, Interrupted, Some(true))
  {
  }

  /** A loaded job that was under way or failed is written back as interrupted and ends in recovery. */
  lemma InterruptedRecovers(l: Local, root: Option<nat>)
    requires l.task.pc == Starting(root, FinishingInterrupted) && l.mem.job.Some?
    ensures Undisturbed(l, 5).Some?
    ensures
      var l' := Undisturbed(l, 5).value;
      && l'.task.pc == Starting(root, ClosingInit(NeedsRecovery))
      && l'.disk.visible == Record(l.mem.job.value.id, l.mem.job.value.operation, Interrupted, Some(true))
      && l'.disk.maybe == {l'.disk.visible} && DemandsRecovery(l'.disk.visible)
  {
    var l1 := InitAt(l.(mem := FinishJob(l.mem, Interrupted)), root, RecordingInterrupted(Snapshot));
    UndisturbedStep(l, root, FinishingInterrupted, l1, 4);
    RecordingRuns(l1, root, 1);
    InterruptedRecord(l.mem);
    DecidesByJob(InitAt(l1.(disk := Disk(Encode(l1.mem.job), {Encode(l1.mem.job)})), root, Deciding), root);
  }

  /**
    Left alone, with nothing failing and nobody cancelling, initialization goes on to prepare the instance exactly when the journal
    it finds does not demand recovery; otherwise it closes in error.
   */
  lemma JournalDecides(l: Local, root: Option<nat>) returns (n: nat)
    requires l.task.pc == Starting(root, Loading)
    ensures Undisturbed(l, n).Some?
    ensures
      var pc := Undisturbed(l, n).value.task.pc;
      if DemandsRecovery(l.disk.visible)
      then pc == Starting(root, ClosingInit(NeedsRecovery)) || pc == Starting(root, ClosingInit(Broken))
      else pc == Starting(root, Preparing)
  {
    var l1 := InitStep(l, root, Loading, Fine).value;
    match Load(l.disk.visible)
    case BadJournal =>
      n := 1;
      UndisturbedStep(l, root, Loading, l1, 0);
      assert Undisturbed(l1, 0) == Some(l1);
    case NoJob =>
      n := 2;
      UndisturbedStep(l, root, Loading, l1, 1);
      DecidesByJob(l1, root);
    case LoadedJob(job) =>
      var l2 := InitStep(l1, root, Normalising, Fine).value;
      n := if Unfinished(job.status) then 7 else 3;
      UndisturbedStep(l, root, Loading, l1, n - 1);
      UndisturbedStep(l1, root, Normalising, l2, n - 2);
      if Unfinished(job.status) {
        InterruptedRecovers(l2, root);
      } else {
        DecidesByJob(l2, root);
      }
  }

  lemma DecidesByJob(l: Local, root: Option<nat>)
    requires l.task.pc == Starting(root, Deciding)
    ensures Undisturbed(l, 1).Some?
    ensures Undisturbed(l, 1).value.task.pc
         == Starting(root, if l.mem.job.Some? && l.mem.job.value.requiresRecovery then ClosingInit(NeedsRecovery) else Preparing)
    ensures Undisturbed(l, 1).value.disk == l.disk
  {
    var l1 := InitStep(l, root, Deciding, Fine).value;
    UndisturbedStep(l, root, Deciding, l1, 0);
    assert Undisturbed(l1, 0) == Some(l1);
  }

  /** What is written is what is read: every saved job loads as itself. */
  lemma LoadsWhatWasSaved(job: Job)
    ensures Load(Encode(Some(job))) == LoadedJob(job)
    ensures DemandsRecovery(Encode(Some(job))) <==> job.requiresRecovery || Unfinished(job.status)
  {
  }
}
