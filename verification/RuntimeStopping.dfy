/**
  Which claim a waiting `stop` ends. A waiter does not look at the owner again when it wakes up,
  so it may end a claim that was granted after it began to wait.
 */
module RuntimeStopping {
  import opened Wrappers
  import opened RuntimeTypes
  import opened RuntimeProtocol

  /** A call never puts the runtime into stopping: neither as the state to fall back to nor as a probe's result. */
  predicate NeverStops(pc: Pc) {
    match pc
    case Operating(_, RecordingWaiting(_, before)) => before != Stopping
    case Operating(_, Draining(before)) => before != Stopping
    case Operating(_, RecordingRunning(_, before)) => before != Stopping
    case Operating(_, Aborting(before)) => before != Stopping
    case Operating(_, FinishingCancelled(before)) => before != Stopping
    case Operating(_, RecordingCancelled(_, before)) => before != Stopping
    case Starting(_, ClosingInit(Inspected(state))) => state != Stopping
    case Starting(_, LeavingInit(Inspected(state))) => state != Stopping
    case _ => true
  }

  /** No call in flight stops the runtime, and every waiter waits for a `stop` that was called. */
  predicate Waiters(s: Sys) {
    forall t :: 0 <= t < |s.tasks| ==> NeverStops(s.tasks[t].pc) && (s.tasks[t].pc.StopWaiting? ==> s.tasks[t].pc.claim <= s.stopAsked)
  }

  /** An owned runtime is stopping exactly when `stop` was called on the present claim. */
  predicate Asked(s: Sys) {
    s.stopAsked <= s.claims && (s.mem.owned ==> (s.mem.state == Stopping <==> s.stopAsked == s.claims))
  }

  predicate SameStopping(m: Memory, m': Memory) {
    m'.owned == m.owned && (m'.state == Stopping <==> m.state == Stopping)
  }

  lemma OpRecordingStops(l: Local, op: OpPoint, o: Outcome)
    requires Recording(op) && NeverStops(Operating(None, op))
    ensures
      var l' := OpRecording(l, op, op.stage, o);
      NeverStops(l'.task.pc) && !l'.task.pc.StopWaiting? && SameStopping(l.mem, l'.mem)
  {
  }

  lemma OpStepStops(l: Local, root: Option<nat>, op: OpPoint, o: Outcome)
    requires OpStep(l, root, op, o).Some? && NeverStops(Operating(root, op))
    ensures
      var l' := OpStep(l, root, op, o).value;
      NeverStops(l'.task.pc) && !l'.task.pc.StopWaiting? && SameStopping(l.mem, l'.mem)
  {
    if Recording(op) {
      OpRecordingStops(l, op, o);
    }
  }

  lemma InitRecordingStops(l: Local, root: Option<nat>, stage: SaveStage, o: Outcome)
    ensures
      var l' := InitRecording(l, root, stage, o);
      NeverStops(l'.task.pc) && !l'.task.pc.StopWaiting? && SameStopping(l.mem, l'.mem)
  {
  }

  lemma InitStepStops(l: Local, root: Option<nat>, init: InitPoint, o: Outcome)
    requires InitStep(l, root, init, o).Some?
    ensures
      var l' := InitStep(l, root, init, o).value;
      NeverStops(l'.task.pc) && !l'.task.pc.StopWaiting? && SameStopping(l.mem, l'.mem)
  {
    if init.RecordingInterrupted? {
      InitRecordingStops(l, root, init.stage, o);
    }
  }

  lemma NestStepStops(l: Local, nest: NestPoint, o: Outcome)
    ensures
      var l' := NestStep(l, nest, o);
      NeverStops(l'.task.pc) && !l'.task.pc.StopWaiting? && SameStopping(l.mem, l'.mem)
  {
  }

  /** One call moves on. */
  lemma MovedStops(s: Sys, s': Sys, t: nat)
    requires Waiters(s) && Asked(s) && t < |s.tasks| && |s'.tasks| == |s.tasks|
    requires forall u :: 0 <= u < |s.tasks| && u != t ==> s'.tasks[u] == s.tasks[u]
    requires NeverStops(s'.tasks[t].pc) && !s'.tasks[t].pc.StopWaiting? && SameStopping(s.mem, s'.mem)
    requires s'.claims == s.claims && s'.stopAsked == s.stopAsked
    ensures Waiters(s') && Asked(s')
  {
  }

  lemma OperatorStops(s: Sys, t: nat, root: Option<nat>, op: OpPoint, o: Outcome)
    requires Waiters(s) && Asked(s) && t < |s.tasks| && s.tasks[t].pc == Operating(root, op) && MoveOperator(s, t, root, op, o).Some?
    ensures Waiters(MoveOperator(s, t, root, op, o).value) && Asked(MoveOperator(s, t, root, op, o).value)
  {
    if !op.Closing? && !op.Leaving? && !StartsRegion(op, o) {
      OpStepStops(View(s, t), root, op, o);
    }
    MovedStops(s, MoveOperator(s, t, root, op, o).value, t);
  }

  lemma InitializerStops(s: Sys, t: nat, root: Option<nat>, init: InitPoint, o: Outcome)
    requires Waiters(s) && Asked(s) && t < |s.tasks| && s.tasks[t].pc == Starting(root, init) && MoveInitializer(s, t, root, init, o).Some?
    ensures Waiters(MoveInitializer(s, t, root, init, o).value) && Asked(MoveInitializer(s, t, root, init, o).value)
  {
    if !init.ClosingInit? && !init.LeavingInit? {
      InitStepStops(View(s, t), root, init, o);
    }
    MovedStops(s, MoveInitializer(s, t, root, init, o).value, t);
  }

  lemma MoveStops(s: Sys, t: nat, o: Outcome)
    requires Waiters(s) && Asked(s) && Move(s, t, o).Some?
    ensures Waiters(Move(s, t, o).value) && Asked(Move(s, t, o).value)
  {
    match s.tasks[t].pc
    case Operating(root, op) => OperatorStops(s, t, root, op, o);
    case Starting(root, init) => InitializerStops(s, t, root, init, o);
    case Nesting(nest) =>
      NestStepStops(View(s, t), nest, o);
      MovedStops(s, MoveNested(s, t, nest, o), t);
    case Riding => MovedStops(s, At(s, t, Done(!o.Fails?)), t);
  }

  /** One more call is in flight. */
  lemma ArrivalStops(s: Sys, s': Sys, task: Task)
    requires Waiters(s) && Asked(s) && s'.tasks == s.tasks + [task] && NeverStops(task.pc) && !task.pc.StopWaiting?
    requires SameStopping(s.mem, s'.mem) && s'.claims == s.claims && s'.stopAsked == s.stopAsked
    ensures Waiters(s') && Asked(s')
  {
  }

  lemma CallNestedStops(s: Sys, p: nat, operation: Operation, id: nat)
    requires Waiters(s) && Asked(s) && CallNested(s, p, operation, id).Some?
    ensures Waiters(CallNested(s, p, operation, id).value) && Asked(CallNested(s, p, operation, id).value)
  {
    var s' := CallNested(s, p, operation, id).value;
    ArrivalStops(s, s', s'.tasks[|s.tasks|]);
  }

  lemma CallDriverStops(s: Sys, operation: Operation, id: nat)
    requires Waiters(s) && Asked(s) && CallDriver(s, operation, id).Some?
    ensures Waiters(CallDriver(s, operation, id).value) && Asked(CallDriver(s, operation, id).value)
  {
    var s' := CallDriver(s, operation, id).value;
    ArrivalStops(s, s', s'.tasks[|s.tasks|]);
  }

  lemma InitializeStops(s: Sys)
    requires Waiters(s) && Asked(s) && Initialize(s).Some?
    ensures Waiters(Initialize(s).value) && Asked(Initialize(s).value)
  {
    ArrivalStops(s, Initialize(s).value, Initialize(s).value.tasks[|s.tasks|]);
  }

  lemma StopStops(s: Sys)
    requires Waiters(s) && Asked(s) && Stop(s).Some?
    ensures Waiters(Stop(s).value) && Asked(Stop(s).value)
  {
  }

  lemma WaiterStops(s: Sys, a: Action)
    requires Waiters(s) && Asked(s) && Enabled(s, a) && (a.Wake? || a.StopTimeout?)
    ensures Waiters(Next(s, a).value) && Asked(Next(s, a).value)
  {
  }

  lemma StepStops(s: Sys, a: Action)
    requires Waiters(s) && Asked(s) && Enabled(s, a)
    ensures Waiters(Next(s, a).value) && Asked(Next(s, a).value)
  {
    match a
    case Advance(t, o) => MoveStops(s, t, o);
    case DoInitialize => InitializeStops(s);
    case CallOperation(Some(p), operation, id) => CallNestedStops(s, p, operation, id);
    case CallOperation(None, operation, id) => CallDriverStops(s, operation, id);
    case DoStop => StopStops(s);
    case Wake(_) => WaiterStops(s, a);
    case StopTimeout(_) => WaiterStops(s, a);
    case _ =>
  }

  lemma {:induction false} RunStops(s: Sys, actions: seq<Action>)
    requires Waiters(s) && Asked(s) && Runs(s, actions)
    ensures Waiters(After(s, actions)) && Asked(After(s, actions))
    decreases |actions|
  {
    if actions != [] {
      StepStops(s, actions[0]);
      RunStops(Next(s, actions[0]).value, actions[1..]);
    }
  }

  /**
    In every run whatsoever, a waiter that wakes up to an owned runtime finds it stopping if and
    only if `stop` was called since that claim was granted. So a waiter ends its own claim in
    stopping, and one that ends a later claim ends it outside stopping exactly when nobody asked
    for that claim to be stopped.
   */
  lemma WakeEndsClaim(journal: Journal, actions: seq<Action>, t: nat)
    requires Runs(Boot(journal), actions) && t < |After(Boot(journal), actions).tasks|
    requires After(Boot(journal), actions).tasks[t].pc.StopWaiting? && After(Boot(journal), actions).mem.owned
    requires Enabled(After(Boot(journal), actions), Wake(t))
    ensures
      var s := After(Boot(journal), actions);
      var own := s.tasks[t].pc.claim == s.claims;
      && !Next(s, Wake(t)).value.mem.owned
      && (s.mem.state == Stopping <==> s.stopAsked == s.claims)
      && s.tasks[t].pc.claim <= s.stopAsked <= s.claims
      && (own ==> s.mem.state == Stopping)
  {
    RunStops(Boot(journal), actions);
  }
}
