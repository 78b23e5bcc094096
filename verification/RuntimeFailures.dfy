/**
  What a failure does: to the journal, to the state, and to the call, which never returns normally
  after one.
 */
module RuntimeFailures {
  import opened Wrappers
  import opened RuntimeTypes
  import opened RuntimeProtocol

  // ----- The journal

  /**
    What a crash may leave behind: the old records until the new one has replaced them, either until
    the directory is synced, and then the new one alone. A failing step adds and removes nothing.
   */
  lemma SaveLeaves(m: Memory, disk: Disk, stage: SaveStage, o: Outcome)
    ensures
      var after := match Save(m, disk, stage, o) { case InProgress(d, _) => d case Written(d, _) => d case Raised(_) => disk };
      if o.Fails? || stage.Snapshot? || stage.Fault? then after == disk
      else
        var record := Encode(stage.job);
        && after.visible == record
        && (forall j :: j in after.maybe <==> j == record || (stage.Replace? && j in disk.maybe))
  {
  }

  /** The three steps of a write, and what is raised in them. */
  lemma SaveOrder(m: Memory, disk: Disk, job: Option<Job>, o: Outcome, os: bool)
    ensures Save(m, disk, Snapshot, o) == InProgress(disk, Replace(m.job))
    ensures !o.Fails? ==> Save(m, disk, Replace(job), o).InProgress? && Save(m, disk, Replace(job), o).stage == Sync(job)
    ensures !o.Fails? ==> Save(m, disk, Sync(job), o).Written?
    ensures Save(m, disk, Replace(job), Fails(os)) == InProgress(disk, Fault(os)) == Save(m, disk, Sync(job), Fails(os))
    ensures Save(m, disk, Fault(os), o) == Raised(os)
  {
  }

  /**
    What the start after a crash finds is all that a further crash before the next write can find;
    no call and no lease survives.
   */
  lemma CrashFinds(s: Sys, found: Journal, again: Journal)
    requires Reboot(s, found).Some?
    ensures
      var s' := Reboot(s, found).value;
      && found in s.disk.maybe && s'.disk.visible == found && (Reboot(s', again).Some? <==> again == found)
      && (forall l :: 0 <= l < |s'.leases| ==> !s'.leases[l].active)
      && (forall t :: 0 <= t < |s'.tasks| ==> s'.tasks[t].pc == Dead)
      && ClaimOwner(s').Some? && s'.damaged == s.damaged
  {
  }

  // ----- The state

  /** A record at the end of an operation that the operating system refused leaves it in error; nothing else does. */
  lemma RefusedRecord(l: Local, op: OpPoint, os: bool, o: Outcome)
    requires Recording(op) && op.stage == Fault(os)
    ensures
      var l' := OpRecording(l, op, op.stage, o);
      var last := op.RecordingSucceeded? || op.RecordingFailed? || op.RecordingCancelled?;
      && l'.mem.job == l.mem.job && l'.disk == l.disk
      && l'.mem.state == if last && os && l.mem.state != Stopping then Error else l.mem.state
  {
  }

  /** The same for the record of an interrupted job: initialization then goes on to close as broken. */
  lemma RefusedInterruption(l: Local, root: Option<nat>, os: bool, o: Outcome)
    ensures
      var l' := InitRecording(l, root, Fault(os), o);
      && l'.task.pc == Starting(root, ClosingInit(Broken)) && l'.task.start.broke
      && l'.disk == l.disk && l'.mem == l.mem.(state := if os && l.mem.state != Stopping then Error else l.mem.state)
  {
  }

  /** A nested operation raises when either of its records is refused; only the second can put the instance in error. */
  lemma RefusedNested(l: Local, os: bool, ok: bool, o: Outcome)
    ensures
      var l' := NestStarting(l, Fault(os), o);
      l'.task.pc == Done(false) && l'.mem == l.mem && l'.disk == l.disk && l'.damaged == l.damaged
    ensures
      var l' := NestEnding(l, Fault(os), ok, o);
      && l'.task.pc == Done(false) && l'.disk == l.disk
      && l'.mem == l.mem.(state := if os && l.mem.state != Stopping then Error else l.mem.state)
  {
  }

  // ----- The call

  /** The step runs foreign code, and that fails: a write, the lock, the body, the check, or the drain's deadline. */
  predicate FailsAt(s: Sys, pc: Pc, o: Outcome) {
    match pc
    case Operating(_, Activating) => o.Fails?
    case Operating(_, Body) => o.Fails?
    case Operating(_, Checking) => o != Reports(Ready)
    case Operating(_, Draining(_)) => o.Fails? && Drain(s.mem).KeepWaiting?
    case Operating(_, op) => Recording(op) && (op.stage.Replace? || op.stage.Sync?) && o.Fails?
    case Nesting(NestedBody) => o.Fails?
    case Nesting(RecordingStart(stage)) => (stage.Replace? || stage.Sync?) && o.Fails?
    case Nesting(RecordingNested(stage, _)) => (stage.Replace? || stage.Sync?) && o.Fails?
    case Riding => o.Fails?
    case _ => false
  }

  /** No way back to a normal return. */
  predicate Doomed(pc: Pc) {
    match pc
    case Operating(_, op) => DoomedPoint(op)
    case Nesting(FinishingNested(ok)) => !ok
    case Nesting(RecordingNested(stage, ok)) => !ok || stage.Fault?
    case Nesting(RecordingStart(stage)) => stage.Fault?
    case Done(returned) => !returned
    case Dead => true
    case _ => false
  }

  predicate DoomedPoint(op: OpPoint) {
    match op
    case Closing(ok) => !ok
    case Failing => true
    case FinishingFailed => true
    case RecordingFailed(_) => true
    case Aborting(_) => true
    case FinishingCancelled(_) => true
    case RecordingCancelled(_, _) => true
    case Leaving(returned) => !returned
    case _ => Recording(op) && op.stage.Fault?
  }

  lemma RecordingDooms(l: Local, op: OpPoint, o: Outcome)
    requires Recording(op) && (DoomedPoint(op) || ((op.stage.Replace? || op.stage.Sync?) && o.Fails?))
    ensures Doomed(OpRecording(l, op, op.stage, o).task.pc)
  {
  }

  lemma OpStepDooms(l: Local, root: Option<nat>, op: OpPoint, o: Outcome)
    requires !Recording(op) && !op.Draining? && OpStep(l, root, op, o).Some?
    requires DoomedPoint(op) || ((op.Activating? || op.Body?) && o.Fails?) || (op.Checking? && o != Reports(Ready))
    ensures Doomed(OpStep(l, root, op, o).value.task.pc)
  {
  }

  lemma DrainingDooms(l: Local, before: RuntimeState, o: Outcome)
    requires o.Fails? && Drain(l.mem).KeepWaiting? && OpDraining(l, before, o).Some?
    ensures Doomed(OpDraining(l, before, o).value.task.pc)
  {
  }

  lemma OperatorDooms(s: Sys, t: nat, root: Option<nat>, op: OpPoint, o: Outcome)
    requires t < |s.tasks| && s.tasks[t].pc == Operating(root, op) && MoveOperator(s, t, root, op, o).Some?
    requires DoomedPoint(op) || FailsAt(s, s.tasks[t].pc, o)
    ensures t < |MoveOperator(s, t, root, op, o).value.tasks| && Doomed(MoveOperator(s, t, root, op, o).value.tasks[t].pc)
  {
    if !op.Closing? && !op.Leaving? {
      if Recording(op) {
        RecordingDooms(View(s, t), op, o);
      } else if op.Draining? {
        DrainingDooms(View(s, t), op.before, o);
      } else {
        OpStepDooms(View(s, t), root, op, o);
      }
    }
  }

  lemma NestStepDooms(l: Local, nest: NestPoint, o: Outcome, s: Sys)
    requires Doomed(Nesting(nest)) || FailsAt(s, Nesting(nest), o)
    ensures Doomed(NestStep(l, nest, o).task.pc)
  {
  }

  /** The step that fails, and every step after it. */
  lemma MoveDooms(s: Sys, t: nat, o: Outcome)
    requires Move(s, t, o).Some? && (Doomed(s.tasks[t].pc) || FailsAt(s, s.tasks[t].pc, o))
    ensures t < |Move(s, t, o).value.tasks| && Doomed(Move(s, t, o).value.tasks[t].pc)
  {
    match s.tasks[t].pc
    case Operating(root, op) => OperatorDooms(s, t, root, op, o);
    case Nesting(nest) => NestStepDooms(View(s, t), nest, o, s);
    case _ =>
  }

  lemma MoveLeavesOthers(s: Sys, u: nat, o: Outcome, t: nat)
    requires Move(s, u, o).Some? && t < |s.tasks| && t != u
    ensures t < |Move(s, u, o).value.tasks| && Move(s, u, o).value.tasks[t] == s.tasks[t]
  {
    match s.tasks[u].pc
    case Operating(root, op) => OperatorLeavesOthers(s, u, root, op, o, t);
    case Starting(root, init) => StarterLeavesOthers(s, u, root, init, o, t);
    case _ =>
  }

  lemma OperatorLeavesOthers(s: Sys, u: nat, root: Option<nat>, op: OpPoint, o: Outcome, t: nat)
    requires u < |s.tasks| && MoveOperator(s, u, root, op, o).Some? && t < |s.tasks| && t != u
    ensures t < |MoveOperator(s, u, root, op, o).value.tasks| && MoveOperator(s, u, root, op, o).value.tasks[t] == s.tasks[t]
  {
  }

  lemma StarterLeavesOthers(s: Sys, u: nat, root: Option<nat>, init: InitPoint, o: Outcome, t: nat)
    requires u < |s.tasks| && MoveInitializer(s, u, root, init, o).Some? && t < |s.tasks| && t != u
    ensures t < |MoveInitializer(s, u, root, init, o).value.tasks| && MoveInitializer(s, u, root, init, o).value.tasks[t] == s.tasks[t]
  {
  }

  lemma DoomedStep(s: Sys, a: Action, t: nat)
    requires Enabled(s, a) && t < |s.tasks| && Doomed(s.tasks[t].pc)
    ensures t < |Next(s, a).value.tasks| && Doomed(Next(s, a).value.tasks[t].pc)
  {
    match a
    case Advance(u, o) => if u == t { MoveDooms(s, t, o); } else { MoveLeavesOthers(s, u, o, t); }
    case _ =>
  }

  lemma {:induction false} DoomedRun(s: Sys, actions: seq<Action>, t: nat)
    requires Runs(s, actions) && t < |s.tasks| && Doomed(s.tasks[t].pc)
    ensures t < |After(s, actions).tasks| && Doomed(After(s, actions).tasks[t].pc)
    decreases |actions|
  {
    if actions != [] {
      DoomedStep(s, actions[0], t);
      DoomedRun(Next(s, actions[0]).value, actions[1..], t);
    }
  }

  /**
    If a write of an operation fails, or its lock, its body or its check, or its drain runs out of
    time, the call never returns normally, whatever else happens in any run at all.
   */
  lemma FailureIsFinal(s: Sys, t: nat, o: Outcome, later: seq<Action>)
    requires Move(s, t, o).Some? && FailsAt(s, s.tasks[t].pc, o) && Runs(Move(s, t, o).value, later)
    ensures t < |After(Move(s, t, o).value, later).tasks| && After(Move(s, t, o).value, later).tasks[t].pc != Done(true)
  {
    MoveDooms(s, t, o);
    DoomedRun(Move(s, t, o).value, later, t);
  }
}
