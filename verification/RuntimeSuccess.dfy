/**
  When nothing fails: an operation that nobody calls off and for which nobody has to be waited
  ends well, from each of its points.
 */
module RuntimeSuccess {
  import opened Wrappers
  import opened RuntimeTypes
  import opened RuntimeProtocol
  import opened RuntimeInvariant
  import opened RuntimeSafety
  import opened RuntimeTheorems
  import opened RuntimeReopening
  import opened RuntimeFailures
  import opened RuntimeOutcomes

  /** Whatever the step waits for goes well, and the check finds the instance ready. */
  const Well := Reports(Ready)

  function StageLeft(stage: SaveStage): nat {
    match stage
    case Snapshot => 3
    case Replace(_) => 2
    case Sync(_) => 1
    case Fault(_) => 0
  }

  /** How many steps an operation in which nothing failed has left. */
  function StepsLeft(op: OpPoint): nat {
    match op
    case RecordingWaiting(stage, _) => 13 + StageLeft(stage)
    case Draining(_) => 13
    case RecordingRunning(stage, _) => 9 + StageLeft(stage)
    case Activating => 9
    case Body => 8
    case Checking => 7
    case Closing(_) => 6
    case FinishingSucceeded => 5
    case RecordingSucceeded(stage) => 1 + StageLeft(stage)
    case _ => 1
  }

  /** Nothing failed so far, nobody called the job off. */
  predicate InOrder(m: Memory, op: OpPoint) {
    !DoomedPoint(op) && m.state != Stopping && m.job.Some? && m.job.value.status != Cancelled
  }

  /** Besides, no lease but the operation's own is live, and no call is nested in it. */
  predicate Alone(s: Sys, t: nat) {
    && t < |s.tasks| && s.tasks[t].pc.Operating? && InOrder(s.mem, s.tasks[t].pc.op)
    && OnlyRoot(s, s.tasks[t].pc.root) && NoFrames(s)
  }

  predicate SameJob(m: Memory, m': Memory) {
    && m.job.Some? && m'.job.Some?
    && m'.job.value.id == m.job.value.id && m'.job.value.operation == m.job.value.operation
  }

  /** One step further. */
  predicate GoesOn(l: Local, root: Option<nat>, op: OpPoint, l': Local) {
    && l'.task.pc.Operating? && l'.task.pc.root == root && StepsLeft(l'.task.pc.op) + 1 == StepsLeft(op)
    && InOrder(l'.mem, l'.task.pc.op) && SameJob(l.mem, l'.mem)
  }

  lemma RecordingGoesWell(l: Local, root: Option<nat>, op: OpPoint)
    requires OpState(l.mem, root, op) && InOrder(l.mem, op) && Recording(op) && !StartsRegion(op, Well)
    ensures GoesOn(l, root, op, OpRecording(l, op, op.stage, Well))
  {
  }

  lemma OpStepGoesWell(l: Local, root: Option<nat>, op: OpPoint)
    requires OpState(l.mem, root, op) && InOrder(l.mem, op) && (op.Draining? ==> l.mem.active == 0)
    requires !op.Closing? && !op.Leaving? && !StartsRegion(op, Well)
    ensures OpStep(l, root, op, Well).Some? && GoesOn(l, root, op, OpStep(l, root, op, Well).value)
  {
    if Recording(op) {
      RecordingGoesWell(l, root, op);
    }
  }

  /** One step further, and still alone. */
  predicate Further(s: Sys, t: nat, s': Sys) {
    && Alone(s, t) && Alone(s', t) && StepsLeft(s'.tasks[t].pc.op) + 1 == StepsLeft(s.tasks[t].pc.op) && SameJob(s.mem, s'.mem)
  }

  lemma PutGoesWell(s: Sys, t: nat, root: Option<nat>, op: OpPoint, l: Local)
    requires Alone(s, t) && s.tasks[t].pc == Operating(root, op) && GoesOn(View(s, t), root, op, l)
    ensures Further(s, t, Put(s, t, l))
  {
  }

  lemma RegionGoesWell(s: Sys, t: nat, root: Option<nat>, op: OpPoint)
    requires Safe(s) && Alone(s, t) && s.tasks[t].pc == Operating(root, op) && StartsRegion(op, Well) && s.holder == Some(t)
    ensures Further(s, t, MoveRunning(s, t, op.stage.job))
  {
  }

  lemma ClosingGoesWell(s: Sys, t: nat, root: Option<nat>, op: OpPoint)
    requires Safe(s) && Alone(s, t) && s.tasks[t].pc == Operating(root, op) && op.Closing? && s.holder == Some(t)
    ensures MoveClosing(s, t, root, op.ok).Some? && Further(s, t, MoveClosing(s, t, root, op.ok).value)
  {
  }

  lemma OperatorGoesWell(s: Sys, t: nat, root: Option<nat>, op: OpPoint)
    requires Safe(s) && Alone(s, t) && s.tasks[t].pc == Operating(root, op) && !op.Leaving? && s.holder == Some(t)
    ensures MoveOperator(s, t, root, op, Well).Some? && Further(s, t, MoveOperator(s, t, root, op, Well).value)
  {
    if op.Closing? {
      ClosingGoesWell(s, t, root, op);
    } else if StartsRegion(op, Well) {
      RegionGoesWell(s, t, root, op);
    } else {
      LiveCountZero(s.leases);
      OpStepGoesWell(View(s, t), root, op);
      PutGoesWell(s, t, root, op, OpStep(View(s, t), root, op, Well).value);
    }
  }

  /** The steps of one call, one after the other. */
  function Steps(t: nat, n: nat): (run: seq<Action>)
    ensures |run| == n
  {
    if n == 0 then [] else [Advance(t, Well)] + Steps(t, n - 1)
  }

  /** What holds when an operation has ended well. */
  predicate Succeeds(s: Sys, t: nat, job: Job) {
    && t < |s.tasks| && s.tasks[t].pc == Done(true) && s.tasks[t].finished == Some(Succeeded)
    && s.mem.state == Ready && !s.mem.busy && s.mem.job == Some(Job(job.id, job.operation, Succeeded, false))
    && s.disk == Disk(Record(job.id, job.operation, Succeeded, Some(false)), {Record(job.id, job.operation, Succeeded, Some(false))})
  }

  lemma LeavesWell(s: Sys, t: nat)
    requires Safe(s) && HolderLeads(s) && HolderClears(s) && Alone(s, t) && s.tasks[t].pc.op.Leaving?
    ensures Move(s, t, Well).Some? && Succeeds(Move(s, t, Well).value, t, s.mem.job.value)
  {
    assert s.holder == Some(t);
  }

  lemma {:induction false} StepsSucceed(s: Sys, t: nat)
    requires Safe(s) && HolderLeads(s) && HolderClears(s) && Alone(s, t)
    ensures
      var run := Steps(t, StepsLeft(s.tasks[t].pc.op));
      Runs(s, run) && NestedRun(s, run) && Succeeds(After(s, run), t, s.mem.job.value)
    decreases StepsLeft(s.tasks[t].pc.op)
  {
    var a := Advance(t, Well);
    assert s.holder == Some(t);
    if s.tasks[t].pc.op.Leaving? {
      LeavesWell(s, t);
      assert Steps(t, 1) == [a] && [a][1..] == [];
    } else {
      OperatorGoesWell(s, t, s.tasks[t].pc.root, s.tasks[t].pc.op);
      var s' := Next(s, a).value;
      StepSafe(s, a);
      StepLeads(s, a);
      StepClears(s, a);
      StepsSucceed(s', t);
      RunsOn(s, a, Steps(t, StepsLeft(s'.tasks[t].pc.op)));
    }
  }

  lemma RunsOn(s: Sys, a: Action, rest: seq<Action>)
    requires Enabled(s, a) && Nested(s, a) && Runs(Next(s, a).value, rest) && NestedRun(Next(s, a).value, rest)
    ensures Runs(s, [a] + rest) && NestedRun(s, [a] + rest) && After(s, [a] + rest) == After(Next(s, a).value, rest)
  {
    assert ([a] + rest)[0] == a && ([a] + rest)[1..] == rest;
  }

  /**
    In every reachable state in which an operation may go on alone, as many of its own steps as it
    has left, none of which fails, lead it to a normal return: its job is on record as succeeded,
    demanding nothing, and the instance is ready.
   */
  lemma AloneSucceeds(journal: Journal, actions: seq<Action>, t: nat)
    requires Runs(Boot(journal), actions) && NestedRun(Boot(journal), actions) && Alone(After(Boot(journal), actions), t)
    ensures
      var s := After(Boot(journal), actions);
      var run := Steps(t, StepsLeft(s.tasks[t].pc.op));
      && Runs(s, run) && NestedRun(s, run) && Succeeds(After(s, run), t, s.mem.job.value)
  {
    BootInvariant(journal);
    RunLeads(Boot(journal), actions);
    RunClears(Boot(journal), actions);
    StepsSucceed(After(Boot(journal), actions), t);
  }

  /** Nobody has to be waited for. */
  predicate Quiet(s: Sys) { forall l :: 0 <= l < |s.leases| ==> !s.leases[l].active }

  /** A call that is granted while no lease is live returns after sixteen steps if nothing fails. */
  lemma QuietCallSucceeds(journal: Journal, actions: seq<Action>, operation: Operation, id: nat)
    requires Runs(Boot(journal), actions) && NestedRun(Boot(journal), actions)
    requires Quiet(After(Boot(journal), actions)) && CallDriver(After(Boot(journal), actions), operation, id).Some?
    ensures
      var s := CallDriver(After(Boot(journal), actions), operation, id).value;
      var run := Steps(|After(Boot(journal), actions).tasks|, 16);
      && Runs(s, run) && NestedRun(s, run)
      && Succeeds(After(s, run), |After(Boot(journal), actions).tasks|, Job(id, operation, Waiting, false))
  {
    BootInvariant(journal);
    RunLeads(Boot(journal), actions);
    RunClears(Boot(journal), actions);
    QuietCall(After(Boot(journal), actions), operation, id);
  }

  lemma QuietCall(s: Sys, operation: Operation, id: nat)
    requires Safe(s) && Quiet(s) && CallDriver(s, operation, id).Some?
    ensures
      var c := CallDriver(s, operation, id).value;
      var run := Steps(|s.tasks|, 16);
      Runs(c, run) && NestedRun(c, run) && Succeeds(After(c, run), |s.tasks|, Job(id, operation, Waiting, false))
  {
    var c := CallDriver(s, operation, id).value;
    CallDriverSafe(s, operation, id);
    CallDriverLeads(s, operation, id);
    CallDriverClears(s, operation, id);
    assert s.holder.None?;
    StepsSucceed(c, |s.tasks|);
  }
}
