/**
  Where a record says less than it seems to: a run in which a package service was called and its
  job is reported `rejected`.
 */
module SocketLimits {
  import opened Wrappers
  import opened SocketHistory
  import opened SocketWorkers
  import opened SocketTheorems

  lemma {:induction false} RunsAppend(c: Config, s: Sys, first: seq<Action>, second: seq<Action>)
    requires Runs(c, s, first) && Runs(c, After(c, s, first), second)
    ensures Runs(c, s, first + second) && After(c, s, first + second) == After(c, After(c, s, first), second)
    decreases |first|
  {
    if first == [] {
      assert first + second == second;
    } else {
      assert (first + second)[0] == first[0] && (first + second)[1..] == first[1..] + second;
      RunsAppend(c, Next(c, s, first[0]).value, first[1..], second);
    }
  }

  lemma Extend(c: Config, run: seq<Action>, s: Sys, a: Action, s': Sys) returns (longer: seq<Action>)
    requires Runs(c, Start, run) && After(c, Start, run) == s && Next(c, s, a) == Some(s')
    ensures Runs(c, Start, longer) && After(c, Start, longer) == s'
  {
    longer := run + [a];
    var one := [a];
    assert one[1..] == [] && Runs(c, s', one[1..]) && After(c, s', one[1..]) == s';
    RunsAppend(c, Start, run, [a]);
  }

  /** The socket with a single worker past its first recording. */
  function Solo(w: Worker): Sys {
    Sys(1, Listening, [w], [Entry(0, w.job)], false, Serving, if InExchange(w.pc) then Some(0) else None, false)
  }

  lemma SoloRecords(c: Config, w: Worker, o: Outcome)
    requires Accepted(c) && Recording(w.pc) && !w.pc.Born?
    ensures Next(c, Solo(w), Work(0, o)) == Some(Solo(RecordStep(w)))
  {
    var job := RecordStep(w).job;
    assert Position([Entry(0, w.job)], 0) == 0;
    assert Put([Entry(0, w.job)], 0, job) == [Entry(0, job)];
    assert Recorded([Entry(0, w.job)], 0, job, c.historySize) == Some([Entry(0, job)]);
    RecordStepPoints(w);
    assert [w][0 := RecordStep(w)] == [RecordStep(w)];
  }

  lemma FlagsMatterOnce(w: Worker, o: Outcome, free: bool)
    requires !w.pc.Acquiring?
    ensures WorkStep(w, o, Flags(false, false, free)) == WorkStep(w, o, Flags(false, false, true))
  {
  }

  /** The artifact slot follows the worker into the exchange and out of it. */
  lemma SoloShape(w: Worker, next: Worker)
    requires if InExchange(w.pc) then InExchange(next.pc) <==> !w.pc.LeavingExchange?
             else InExchange(next.pc) ==> w.pc.Acquiring? && next.pc.Preparing?
    requires !w.pc.Releasing? && next.pc != LeavingExchange(Returned(false, CleanupFailed))
    ensures WorkMoves(Solo(w), 0, next) == Solo(next.(job := w.job)).(workers := [next])
  {
    assert [w][0 := next] == [next];
  }

  lemma SoloMoves(c: Config, w: Worker, o: Outcome, next: Worker)
    requires !Recording(w.pc) && !w.pc.Releasing? && WorkStep(w, o, Flags(false, false, true)) == Some(next)
    requires next.pc != LeavingExchange(Returned(false, CleanupFailed)) && next.job == w.job
    ensures Next(c, Solo(w), Work(0, o)) == Some(Solo(next))
  {
    if !w.pc.Acquiring? {
      FlagsMatterOnce(w, o, !InExchange(w.pc));
    }
    if InExchange(w.pc) {
      WorkStepLeaves(w, o, Flags(false, false, true));
    } else {
      WorkStepEnters(w, o, Flags(false, false, true));
    }
    SoloShape(w, next);
  }

  /** One more step of the single worker, between recordings or recording. */
  lemma Go(c: Config, run: seq<Action>, w: Worker, o: Outcome, next: Worker) returns (longer: seq<Action>)
    requires Accepted(c) && Runs(c, Start, run) && After(c, Start, run) == Solo(w)
    requires !Recording(w.pc) && !w.pc.Releasing? && WorkStep(w, o, Flags(false, false, true)) == Some(next)
    requires next.pc != LeavingExchange(Returned(false, CleanupFailed)) && next.job == w.job
    ensures Runs(c, Start, longer) && After(c, Start, longer) == Solo(next)
  {
    SoloMoves(c, w, o, next);
    longer := Extend(c, run, Solo(w), Work(0, o), Solo(next));
  }

  lemma Note(c: Config, run: seq<Action>, w: Worker, next: Worker) returns (longer: seq<Action>)
    requires Accepted(c) && Runs(c, Start, run) && After(c, Start, run) == Solo(w)
    requires Recording(w.pc) && !w.pc.Born? && RecordStep(w) == next
    ensures Runs(c, Start, longer) && After(c, Start, longer) == Solo(next)
  {
    SoloRecords(c, w, Fine);
    longer := Extend(c, run, Solo(w), Work(0, Fine), Solo(next));
  }

  /** A connection is accepted and its worker records its job. */
  lemma ReachFirst(c: Config) returns (run: seq<Action>)
    requires Accepted(c)
    ensures Runs(c, Start, run) && After(c, Start, run) == Solo(NewWorker.(pc := Authorizing))
  {
    var s1 := Start.(used := 1, listener := Holding);
    assert Runs(c, Start, []) && After(c, Start, []) == Start;
    run := Extend(c, [], Start, Accept, s1);
    var s2 := Start.(used := 1, workers := [NewWorker]);
    assert Admitted(s1) == s2;
    run := Extend(c, run, s1, Admit, s2);
    assert Put([], 0, NewJob) == [Entry(0, NewJob)];
    assert Recorded([], 0, NewJob, c.historySize) == Some([Entry(0, NewJob)]);
    assert [NewWorker][0 := NewWorker.(pc := Authorizing)] == [NewWorker.(pc := Authorizing)];
    run := Extend(c, run, s2, Work(0, Fine), Solo(NewWorker.(pc := Authorizing)));
  }

  function Uploader(pc: Point, command: Command, phase: Phase): Worker {
    NewWorker.(pc := pc, job := NewJob.(command := command, phase := phase))
  }

  lemma ReachRequest(c: Config) returns (run: seq<Action>)
    requires Accepted(c)
    ensures Runs(c, Start, run) && After(c, Start, run) == Solo(Uploader(Admitting(Consume), Consume, Validation))
  {
    run := ReachFirst(c);
    var w0 := Uploader(Authorizing, Unnamed, Authorization);
    var w1 := Uploader(RecordingHandshake, Unnamed, Authorization);
    var w2 := Uploader(Handshaking, Unnamed, Handshake);
    var w3 := Uploader(RecordingValidation, Unnamed, Handshake);
    var w4 := Uploader(Reading, Unnamed, Validation);
    var w5 := Uploader(RecordingCommand(Consume), Unnamed, Validation);
    run := Go(c, run, w0, Fine, w1);
    run := Note(c, run, w1, w2);
    run := Go(c, run, w2, Fine, w3);
    run := Note(c, run, w3, w4);
    run := Go(c, run, w4, Requests(Consume), w5);
    run := Note(c, run, w5, Uploader(Admitting(Consume), Consume, Validation));
  }

  lemma ReachDispatched(c: Config) returns (run: seq<Action>)
    requires Accepted(c)
    ensures Runs(c, Start, run) && After(c, Start, run) == Solo(Uploader(Claiming(Consume), Consume, Execution))
  {
    run := ReachRequest(c);
    var w0 := Uploader(Admitting(Consume), Consume, Validation);
    var w1 := Uploader(RecordingExecution(Consume), Consume, Validation);
    var w2 := Uploader(Dispatching(Consume), Consume, Execution);
    run := Go(c, run, w0, Fine, w1);
    run := Note(c, run, w1, w2);
    run := Go(c, run, w2, Fine, Uploader(Claiming(Consume), Consume, Execution));
  }

  lemma ReachExchange(c: Config) returns (run: seq<Action>)
    requires Accepted(c)
    ensures Runs(c, Start, run) && After(c, Start, run) == Solo(Uploader(RecordingTransfer(Consume), Consume, Execution))
  {
    run := ReachDispatched(c);
    var w0 := Uploader(Claiming(Consume), Consume, Execution);
    var w1 := Uploader(Acquiring(Consume), Consume, Execution);
    var w2 := Uploader(Preparing(Consume), Consume, Execution);
    run := Go(c, run, w0, Fine, w1);
    run := Go(c, run, w1, Fine, w2);
    run := Go(c, run, w2, Fine, Uploader(RecordingTransfer(Consume), Consume, Execution));
  }

  lemma ReachCall(c: Config) returns (run: seq<Action>)
    requires Accepted(c)
    ensures Runs(c, Start, run) && After(c, Start, run) == Solo(Uploader(Consuming, Consume, Execution).(executed := true))
  {
    run := ReachExchange(c);
    var w1 := Uploader(Transferring(Consume), Consume, Upload);
    var w2 := Uploader(RecordingConsumption, Consume, Upload);
    run := Note(c, run, Uploader(RecordingTransfer(Consume), Consume, Execution), w1);
    run := Go(c, run, w1, Fine, w2);
    run := Note(c, run, w2, Uploader(Consuming, Consume, Execution).(executed := true));
  }

  /** A restore whose service was called and found a conflict is recorded `rejected`. */
  lemma RejectedAfterCall(c: Config) returns (run: seq<Action>)
    requires Accepted(c)
    ensures Runs(c, Start, run)
    ensures
      var s := After(c, Start, run);
      |s.workers| == 1 && s.workers[0].pc == Ending && s.workers[0].executed && s.workers[0].job.status == Rejected
  {
    run := ReachCall(c);
    var conflict := Protocol(Lifecycle);
    var w0 := Uploader(Consuming, Consume, Execution).(executed := true);
    var w1 := w0.(pc := LeavingExchange(Thrown(conflict)), raised := Some(conflict));
    var w2 := w1.(pc := Caught(conflict));
    run := Go(c, run, w0, Raises(conflict), w1);
    run := Go(c, run, w1, Fine, w2);
    run := Note(c, run, w2, RecordStep(w2));
  }
}
