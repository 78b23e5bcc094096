/**
  What a request to stop ends and what it lets finish, when the socket takes a connection or gives
  its path up, and that no worker goes on for ever.
 */
module SocketStopping {
  import opened Wrappers
  import opened SocketHistory
  import opened SocketWorkers
  import opened SocketTheorems

  // ----- Stopping

  /** Up to the test whether the socket is stopping. */
  predicate BeforeTest(pc: Point) {
    || pc.Born? || pc.Authorizing? || pc.RecordingHandshake? || pc.Handshaking? || pc.RecordingValidation?
    || pc.Reading? || pc.RecordingCommand? || pc.Admitting?
  }

  predicate Done(pc: Point) { pc.Ending? || pc.Releasing? || pc.Gone? }

  /** Nothing was called for it, and it is still before the test, or rejected, or about to be. */
  predicate Untouched(w: Worker) {
    && !w.executed && !w.produced
    && (BeforeTest(w.pc) || (w.pc.Caught? && w.job.status == Running)
        || (Done(w.pc) && w.job.status != Succeeded && w.job.status != Failed))
  }

  lemma UntouchedRecords(w: Worker)
    requires WorkerOk(w) && Recording(w.pc) && Untouched(w)
    ensures Untouched(RecordStep(w))
  {
  }

  lemma UntouchedMoves(w: Worker, o: Outcome, f: Flags)
    requires WorkerOk(w) && !Recording(w.pc) && Untouched(w) && f.stopping && WorkStep(w, o, f).Some?
    ensures Untouched(WorkStep(w, o, f).value)
  {
  }

  lemma StoppedStep(c: Config, s: Sys, a: Action, w: nat)
    requires Inv(c, s) && s.stopping && Next(c, s, a).Some? && w < |s.workers| && Untouched(s.workers[w])
    ensures Next(c, s, a).value.stopping && w < |Next(c, s, a).value.workers| && Untouched(Next(c, s, a).value.workers[w])
  {
    if a.Work? && a.worker == w {
      assert WorkerOk(s.workers[w]);
      if Recording(s.workers[w].pc) {
        RecordsTable(c, s, w);
        UntouchedRecords(s.workers[w]);
      } else {
        UntouchedMoves(s.workers[w], a.outcome, Flags(s.stopping, s.cleanupFailed, s.artifact.None?));
      }
    }
  }

  lemma {:induction false} StoppedRun(c: Config, s: Sys, actions: seq<Action>, w: nat)
    requires Inv(c, s) && s.stopping && Runs(c, s, actions) && w < |s.workers| && Untouched(s.workers[w])
    ensures w < |After(c, s, actions).workers| && Untouched(After(c, s, actions).workers[w])
    decreases |actions|
  {
    if actions != [] {
      StepKeeps(c, s, actions[0]);
      StoppedStep(c, s, actions[0], w);
      StoppedRun(c, Next(c, s, actions[0]).value, actions[1..], w);
    }
  }

  /**
    A worker that is at or before the test when the socket is asked to stop never calls anything,
    whatever follows, and does not end with a success or a failure.
   */
  lemma StoppedIsNotServed(c: Config, actions: seq<Action>, later: seq<Action>, w: nat)
    requires Accepted(c) && Runs(c, Start, actions) && After(c, Start, actions).stopping
    requires w < |After(c, Start, actions).workers| && BeforeTest(After(c, Start, actions).workers[w].pc)
    requires Runs(c, After(c, Start, actions), later)
    ensures w < |After(c, After(c, Start, actions), later).workers|
    ensures
      var worker := After(c, After(c, Start, actions), later).workers[w];
      && !worker.executed && !worker.produced
      && (Done(worker.pc) ==> worker.job.status != Succeeded && worker.job.status != Failed)
  {
    StartOk(c);
    RunKeeps(c, Start, actions);
    assert WorkerOk(After(c, Start, actions).workers[w]);
    StoppedRun(c, After(c, Start, actions), later, w);
  }

  /** Stopping is not taken back, and no connection is admitted any more. */
  lemma {:induction false} StoppingStays(c: Config, s: Sys, actions: seq<Action>)
    requires s.stopping && Runs(c, s, actions)
    ensures After(c, s, actions).stopping && |After(c, s, actions).workers| == |s.workers|
    decreases |actions|
  {
    if actions != [] {
      StoppingStays(c, Next(c, s, actions[0]).value, actions[1..]);
    }
  }

  lemma TestPassed(c: Config, s: Sys, w: nat, o: Outcome) returns (s': Sys)
    requires Inv(c, s) && !s.stopping && w < |s.workers| && s.workers[w].pc == Admitting(Control)
    ensures Next(c, s, Work(w, o)) == Some(s') && Inv(c, s')
    ensures w < |s'.workers| && s'.workers[w].pc == RecordingExecution(Control)
  {
    s' := Next(c, s, Work(w, o)).value;
    StepKeeps(c, s, Work(w, o));
  }

  lemma ExecutionNoted(c: Config, s: Sys, w: nat, o: Outcome) returns (s': Sys)
    requires Inv(c, s) && w < |s.workers| && s.workers[w].pc == RecordingExecution(Control)
    ensures Next(c, s, Work(w, o)) == Some(s')
    ensures w < |s'.workers| && s'.workers[w].pc == Dispatching(Control)
  {
    RecordsTable(c, s, w);
    s' := Next(c, s, Work(w, o)).value;
  }

  lemma ControlDispatched(c: Config, s: Sys, w: nat) returns (s': Sys)
    requires w < |s.workers| && s.workers[w].pc == Dispatching(Control)
    ensures Next(c, s, Work(w, Fine)) == Some(s')
    ensures w < |s'.workers| && s'.workers[w].pc == Calling && s'.workers[w].executed
  {
    s' := Next(c, s, Work(w, Fine)).value;
  }

  lemma OneMore(c: Config, s: Sys, a: Action, rest: seq<Action>, s': Sys)
    requires Next(c, s, a) == Some(s') && Runs(c, s', rest)
    ensures Runs(c, s, [a] + rest) && After(c, s, [a] + rest) == After(c, s', rest)
  {
    assert ([a] + rest)[0] == a && ([a] + rest)[1..] == rest;
  }

  lemma ThreeActions(c: Config, s: Sys, s1: Sys, s2: Sys, s3: Sys, a1: Action, a2: Action, a3: Action)
    requires Next(c, s, a1) == Some(s1) && Next(c, s1, a2) == Some(s2) && Next(c, s2, a3) == Some(s3)
    ensures Runs(c, s, [a1, a2, a3]) && After(c, s, [a1, a2, a3]) == s3
  {
    OneMore(c, s2, a3, [], s3);
    OneMore(c, s1, a2, [a3] + [], s2);
    OneMore(c, s, a1, [a2] + ([a3] + []), s1);
    assert [a1, a2, a3] == [a1] + ([a2] + ([a3] + []));
  }

  /** Otherwise a command of the application is called once it is tested, noted and audited. */
  lemma ControlIsCalled(c: Config, s: Sys, w: nat, o: Outcome, o': Outcome)
    requires Inv(c, s) && !s.stopping && w < |s.workers| && s.workers[w].pc == Admitting(Control)
    ensures
      var run := [Work(w, o), Work(w, o'), Work(w, Fine)];
      && Runs(c, s, run) && w < |After(c, s, run).workers|
      && After(c, s, run).workers[w].pc == Calling && After(c, s, run).workers[w].executed
  {
    var s1 := TestPassed(c, s, w, o);
    var s2 := ExecutionNoted(c, s1, w, o');
    var s3 := ControlDispatched(c, s2, w);
    ThreeActions(c, s, s1, s2, s3, Work(w, o), Work(w, o'), Work(w, Fine));
  }

  // ----- Connections and the path

  /** A connection is taken exactly while the listener listens and one more is allowed. */
  lemma AcceptsExactly(c: Config, s: Sys)
    requires Inv(c, s)
    ensures Next(c, s, Accept).Some? <==> s.listener.Listening? && |Live(s)| < c.maxConnections
  {
  }

  /** The path is given up exactly once the listener is over and no worker is registered. */
  lemma ClosesExactly(c: Config, s: Sys)
    requires Inv(c, s)
    ensures Next(c, s, ClosePath).Some? <==>
            s.stage.Draining? && forall w :: 0 <= w < |s.workers| ==> !Registered(s.workers[w].pc)
    ensures s.stage.Draining? ==> s.listener.Ended?
  {
    if s.stage.Draining? && s.stage.awaited !! Awaited(s) {
      assert forall w :: 0 <= w < |s.workers| && Registered(s.workers[w].pc) ==> w in Awaited(s) && w in s.stage.awaited;
    }
  }

  // ----- A failed cleanup

  /** A package service answered that its cleanup failed. */
  predicate Uncleaned(s: Sys, a: Action) {
    && a.Work? && a.worker < |s.workers| && a.outcome == Answers(false, CleanupFailed)
    && (s.workers[a.worker].pc.Preparing? || s.workers[a.worker].pc.Transferring? || s.workers[a.worker].pc.Consuming?)
  }

  predicate EverUncleaned(c: Config, s: Sys, actions: seq<Action>)
    requires Runs(c, s, actions)
    decreases |actions|
  {
    actions != [] && (Uncleaned(s, actions[0]) || EverUncleaned(c, Next(c, s, actions[0]).value, actions[1..]))
  }

  lemma CleanupMove(w: Worker, o: Outcome, f: Flags)
    requires !Recording(w.pc) && WorkStep(w, o, f).Some?
    ensures WorkStep(w, o, f).value.pc == LeavingExchange(Returned(false, CleanupFailed)) <==>
            o == Answers(false, CleanupFailed) && (w.pc.Preparing? || w.pc.Transferring? || w.pc.Consuming?)
  {
    if w.pc.Dispatching? {
      CleanupDispatch(w, w.pc.command, o);
    }
  }

  lemma CleanupDispatch(w: Worker, command: Command, o: Outcome)
    requires Dispatch(w, command, o).Some?
    ensures !Dispatch(w, command, o).value.pc.LeavingExchange?
  {
  }

  lemma CleanupStep(c: Config, s: Sys, a: Action)
    requires Next(c, s, a).Some?
    ensures Next(c, s, a).value.cleanupFailed <==> s.cleanupFailed || Uncleaned(s, a)
  {
    if a.Work? && !Recording(s.workers[a.worker].pc) {
      CleanupMove(s.workers[a.worker], a.outcome, Flags(s.stopping, s.cleanupFailed, s.artifact.None?));
    }
  }

  /** The flag that closes the socket for packages is up exactly when some cleanup failed. */
  lemma {:induction false} CleanupFailedExactly(c: Config, s: Sys, actions: seq<Action>)
    requires Runs(c, s, actions)
    ensures After(c, s, actions).cleanupFailed <==> s.cleanupFailed || EverUncleaned(c, s, actions)
    decreases |actions|
  {
    if actions != [] {
      CleanupStep(c, s, actions[0]);
      CleanupFailedExactly(c, Next(c, s, actions[0]).value, actions[1..]);
    }
  }

  // ----- Progress

  /** How many steps a worker has left at most. */
  function Rank(pc: Point): nat {
    match pc
    case Born => 24
    case Authorizing => 23
    case RecordingHandshake => 22
    case Handshaking => 21
    case RecordingValidation => 20
    case Reading => 19
    case RecordingCommand(_) => 18
    case Admitting(_) => 17
    case RecordingExecution(_) => 16
    case Dispatching(_) => 15
    case Claiming(_) => 14
    case Acquiring(_) => 13
    case Preparing(_) => 12
    case RecordingTransfer(_) => 11
    case Transferring(_) => 10
    case RecordingConsumption => 9
    case Consuming => 8
    case Calling => 8
    case LeavingExchange(_) => 7
    case RecordingOutcome(_, _) => 6
    case Writing => 5
    case RecordingSent => 4
    case Caught(_) => 3
    case Ending => 2
    case Releasing => 1
    case Gone => 0
    case Crashed => 0
  }

  lemma RecordRank(w: Worker)
    requires Recording(w.pc)
    ensures Rank(RecordStep(w).pc) < Rank(w.pc)
  {
  }

  lemma DispatchRank(w: Worker, command: Command, o: Outcome)
    requires Dispatch(w, command, o).Some?
    ensures Rank(Dispatch(w, command, o).value.pc) < 15
  {
  }

  lemma EarlyRank(w: Worker, o: Outcome, f: Flags)
    requires Early(w.pc) && WorkStep(w, o, f).Some?
    ensures Rank(WorkStep(w, o, f).value.pc) < Rank(w.pc)
  {
  }

  lemma ExchangeRank(w: Worker, o: Outcome, f: Flags)
    requires InExchange(w.pc) && !Recording(w.pc) && WorkStep(w, o, f).Some?
    ensures Rank(WorkStep(w, o, f).value.pc) < Rank(w.pc)
  {
  }

  lemma MoveRank(w: Worker, o: Outcome, f: Flags)
    requires !Recording(w.pc) && WorkStep(w, o, f).Some?
    ensures Rank(WorkStep(w, o, f).value.pc) < Rank(w.pc)
  {
    if w.pc.Dispatching? {
      DispatchRank(w, w.pc.command, o);
    } else if Early(w.pc) {
      EarlyRank(w, o, f);
    } else if InExchange(w.pc) {
      ExchangeRank(w, o, f);
    }
  }

  /** There is always a next step for a worker that is not gone, and one may come of several outcomes. */
  lemma WorkerProceeds(c: Config, s: Sys, w: nat) returns (o: Outcome)
    requires Inv(c, s) && w < |s.workers| && !s.workers[w].pc.Gone?
    ensures Next(c, s, Work(w, o)).Some?
  {
    assert WorkerOk(s.workers[w]);
    var pc := s.workers[w].pc;
    o := if pc.Reading? then Requests(Control)
         else if pc.Calling? || pc.Consuming? then Answers(true, OtherClass)
         else if pc.Transferring? && pc.command == Produce then Answers(true, OtherClass)
         else if pc == Dispatching(JobStatus) then Answers(true, OtherClass) else Fine;
  }

  function StepsOf(actions: seq<Action>, w: nat): nat {
    if actions == [] then 0 else (if actions[0].Work? && actions[0].worker == w then 1 else 0) + StepsOf(actions[1..], w)
  }

  lemma StepRank(c: Config, s: Sys, a: Action, w: nat)
    requires Inv(c, s) && Next(c, s, a).Some? && w < |s.workers|
    ensures
      var s' := Next(c, s, a).value;
      && w < |s'.workers|
      && Rank(s'.workers[w].pc) + (if a.Work? && a.worker == w then 1 else 0) <= Rank(s.workers[w].pc)
  {
    if a.Work? && a.worker == w {
      if Recording(s.workers[w].pc) {
        RecordsTable(c, s, w);
        RecordRank(s.workers[w]);
      } else {
        MoveRank(s.workers[w], a.outcome, Flags(s.stopping, s.cleanupFailed, s.artifact.None?));
      }
    }
  }

  /** Every worker is gone, and has given its slot back, after at most twenty-four steps of its own. */
  lemma {:induction false} WorkersEnd(c: Config, s: Sys, actions: seq<Action>, w: nat)
    requires Inv(c, s) && Runs(c, s, actions) && w < |s.workers|
    ensures w < |After(c, s, actions).workers|
    ensures StepsOf(actions, w) + Rank(After(c, s, actions).workers[w].pc) <= Rank(s.workers[w].pc) <= 24
    decreases |actions|
  {
    if actions != [] {
      StepKeeps(c, s, actions[0]);
      StepRank(c, s, actions[0], w);
      WorkersEnd(c, Next(c, s, actions[0]).value, actions[1..], w);
    }
  }
}
