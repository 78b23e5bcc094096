/**
  `_serve` written down as it is written: statements in order, exceptions passed up to one handler.
  Whatever the interleaving, a worker ends with exactly the account that this gives for what it
  met on its way.
 */
module SocketServing {
  import opened Wrappers
  import opened SocketHistory
  import opened SocketWorkers
  import opened SocketTheorems

  // ----- The reference

  /** What one statement met: how its foreign call ended, and the shared flags. */
  datatype Heard = Heard(outcome: Outcome, flags: Flags)

  /** The job's record, what was called, what that raised, what was answered, whether the answer was written. */
  datatype Account = Account(job: Job, executed: bool, produced: bool, raised: Option<Fault>, answered: Option<bool>, written: bool)

  datatype Course = Unfinished | Over(account: Account) | Throws(account: Account, fault: Fault)

  const Nothing := Account(Job(Unnamed, Authorization, Running, Pending), false, false, None, None, false)

  function InPhase(a: Account, phase: Phase): Account { a.(job := a.job.(phase := phase)) }

  /** The whole of it, with its three handlers. */
  function Serve(script: seq<Heard>): Course { Handled(Authorize(Nothing, script)) }

  function Handled(c: Course): Course {
    match c
    case Throws(a, Protocol(phase)) =>
      var status := if a.job.status == Running then Rejected else a.job.status;
      Over(a.(job := Job(a.job.command, phase, status, Lost)))
    case Throws(a, Os) =>
      if a.job.status != Running then Over(a.(job := Job(a.job.command, Transfer, a.job.status, Lost)))
      else Over(a.(job := Job(a.job.command, a.job.phase, if a.job.phase == Execution then Unknown else Rejected, Lost)))
    case Throws(a, Other) => Over(a.(job := Job(a.job.command, Execution, Unknown, Lost)))
    case _ => c
  }

  function Authorize(a: Account, s: seq<Heard>): Course {
    if s == [] then Unfinished
    else match s[0].outcome
      case Fine => Greet(InPhase(a, Handshake), s[1..])
      case Raises(fault) => Throws(a, fault)
      case _ => Unfinished
  }

  function Greet(a: Account, s: seq<Heard>): Course {
    if s == [] then Unfinished
    else match s[0].outcome
      case Fine => Request(InPhase(a, Validation), s[1..])
      case Raises(fault) => Throws(a, fault)
      case _ => Unfinished
  }

  /** The command is noted if it is in the tables. */
  function Request(a: Account, s: seq<Heard>): Course {
    if s == [] then Unfinished
    else match s[0].outcome
      case Requests(command) => Test(a.(job := a.job.(command := command)), command, s[1..])
      case Raises(fault) => Throws(a, fault)
      case _ => Unfinished
  }

  function Test(a: Account, command: Command, s: seq<Heard>): Course {
    if s == [] then Unfinished
    else if s[0].flags.stopping then Throws(a, Protocol(Lifecycle))
    else Announce(InPhase(a, Execution), command, s[1..])
  }

  /** The audit event, and then the command by its kind. */
  function Announce(a: Account, command: Command, s: seq<Heard>): Course {
    if s == [] then Unfinished
    else match s[0].outcome
      case Raises(fault) => Throws(a, fault)
      case Fine =>
        (match command
         case Unnamed => Throws(a, Protocol(Validation))
         case Control => Call(a.(executed := true), s[1..])
         case JobStatus => Unfinished
         case _ => Claim(a, command, s[1..]))
      case Answers(ok, error) =>
        if command == JobStatus && ok && error == OtherClass then Answer(a.(answered := Some(true)), true, error, s[1..]) else Unfinished
      case _ => Unfinished
  }

  /** The application. */
  function Call(a: Account, s: seq<Heard>): Course {
    if s == [] then Unfinished
    else match s[0].outcome
      case Answers(ok, error) => Answer(a.(answered := Some(ok)), ok, error, s[1..])
      case Raises(fault) => Throws(a.(raised := Some(fault)), fault)
      case _ => Unfinished
  }

  /** No exchange after a failed cleanup, and one at a time. */
  function Claim(a: Account, command: Command, s: seq<Heard>): Course {
    if |s| < 2 then (if s != [] && s[0].flags.cleanupFailed then Throws(a, Protocol(Lifecycle)) else Unfinished)
    else if s[0].flags.cleanupFailed || !s[1].flags.artifactFree then Throws(a, Protocol(Lifecycle))
    else Prepare(a, command, s[2..])
  }

  /** Up to the announcement of the stream; nothing has been done yet. */
  function Prepare(a: Account, command: Command, s: seq<Heard>): Course {
    if s == [] then Unfinished
    else match s[0].outcome
      case Fine =>
        if command == Produce then Production(InPhase(a, Download).(produced := true), s[1..])
        else Reception(InPhase(a, Upload), s[1..])
      case Answers(ok, error) => if ok then Unfinished else Leave(a.(answered := Some(false)), None, error, s[1..])
      case Raises(fault) => Leave(a, Some(fault), OtherClass, s[1..])
      case _ => Unfinished
  }

  function Production(a: Account, s: seq<Heard>): Course {
    if s == [] then Unfinished
    else match s[0].outcome
      case Answers(ok, error) => Leave(a.(answered := Some(ok)), None, error, s[1..])
      case Raises(fault) => Leave(a.(raised := Some(fault)), Some(fault), OtherClass, s[1..])
      case _ => Unfinished
  }

  /** The package is received first; what fails then has not reached the service. */
  function Reception(a: Account, s: seq<Heard>): Course {
    if s == [] then Unfinished
    else match s[0].outcome
      case Fine => Consumption(InPhase(a, Execution).(executed := true), s[1..])
      case Answers(ok, error) => if ok then Unfinished else Leave(a.(answered := Some(false)), None, error, s[1..])
      case Raises(fault) => Leave(a, Some(fault), OtherClass, s[1..])
      case _ => Unfinished
  }

  function Consumption(a: Account, s: seq<Heard>): Course {
    if s == [] then Unfinished
    else match s[0].outcome
      case Answers(ok, error) => Leave(a.(answered := Some(ok)), None, error, s[1..])
      case Raises(fault) => Leave(a.(raised := Some(fault)), Some(fault), OtherClass, s[1..])
      case _ => Unfinished
  }

  /** The slot is given back on every way out. */
  function Leave(a: Account, thrown: Option<Fault>, error: ErrorClass, s: seq<Heard>): Course {
    if s == [] then Unfinished
    else if thrown.Some? then Throws(a, thrown.value)
    else Answer(a, a.answered == Some(true), error, s[1..])
  }

  /** The outcome is noted, and the result written. */
  function Answer(a: Account, ok: bool, error: ErrorClass, s: seq<Heard>): Course {
    var phase := if ok then Execution else if error == NotReady then Lifecycle else if error == InvalidRequest then Validation else Execution;
    var noted := a.(job := a.job.(status := if ok then Succeeded else Failed, phase := phase));
    Write(noted, s)
  }

  function Write(a: Account, s: seq<Heard>): Course {
    if s == [] then Unfinished
    else match s[0].outcome
      case Fine => Over(a.(written := true, job := a.job.(delivery := Sent)))
      case Raises(fault) => Throws(a, fault)
      case _ => Unfinished
  }

  // ----- A worker at one of its points

  function AccountOf(w: Worker): Account { Account(w.job, w.executed, w.produced, w.raised, w.answered, w.written) }

  /** What is still to come of it. */
  function Remaining(w: Worker, s: seq<Heard>): Course {
    var a := AccountOf(w);
    match w.pc
    case Born => Handled(Authorize(a, s))
    case Authorizing => Handled(Authorize(a, s))
    case RecordingHandshake => Handled(Greet(InPhase(a, Handshake), s))
    case Handshaking => Handled(Greet(a, s))
    case RecordingValidation => Handled(Request(InPhase(a, Validation), s))
    case Reading => Handled(Request(a, s))
    case RecordingCommand(command) => Handled(Test(a.(job := a.job.(command := command)), command, s))
    case Admitting(command) => Handled(Test(a, command, s))
    case RecordingExecution(command) => Handled(Announce(InPhase(a, Execution), command, s))
    case Dispatching(command) => Handled(Announce(a, command, s))
    case Claiming(command) => Handled(Claim(a, command, s))
    case Acquiring(command) =>
      if s == [] then Unfinished
      else Handled(if s[0].flags.artifactFree then Prepare(a, command, s[1..]) else Throws(a, Protocol(Lifecycle)))
    case Preparing(command) => Handled(Prepare(a, command, s))
    case RecordingTransfer(command) =>
      Handled(if command == Produce then Production(InPhase(a, Download).(produced := true), s) else Reception(InPhase(a, Upload), s))
    case Transferring(command) => Handled(if command == Produce then Production(a, s) else Reception(a, s))
    case RecordingConsumption => Handled(Consumption(InPhase(a, Execution).(executed := true), s))
    case Consuming => Handled(Consumption(a, s))
    case LeavingExchange(Returned(ok, error)) => Handled(Leave(a, None, error, s))
    case LeavingExchange(Thrown(fault)) => Handled(Leave(a, Some(fault), OtherClass, s))
    case Calling => Handled(Call(a, s))
    case RecordingOutcome(ok, error) => Handled(Answer(a, ok, error, s))
    case Writing => Handled(Write(a, s))
    case RecordingSent => Over(a.(job := a.job.(delivery := Sent)))
    case Caught(fault) => Handled(Throws(a, fault))
    case Ending => Over(a)
    case Releasing => Over(a)
    case Gone => Over(a)
    case Crashed => Unfinished
  }

  predicate Unread(pc: Point) {
    pc.Born? || pc.Authorizing? || pc.RecordingHandshake? || pc.Handshaking? || pc.RecordingValidation? || pc.Reading?
  }

  /** The points have their facts; only known commands stand in the record. */
  predicate Placed(w: Worker) {
    && WorkerOk(w)
    && (w.pc.Admitting? ==> w.pc.command == w.job.command) && (w.pc.RecordingCommand? ==> w.pc.command != Unnamed)
    && (Unread(w.pc) ==> w.job.command == Unnamed)
    && (w.pc.LeavingExchange? && w.pc.end.Returned? ==> w.answered == Some(w.pc.end.ok))
  }

  lemma RecordRemains(w: Worker, s: seq<Heard>)
    requires Placed(w) && Recording(w.pc)
    ensures Remaining(w, s) == Remaining(RecordStep(w), s)
  {
  }

  lemma EarlyRemains(w: Worker, o: Outcome, f: Flags, s: seq<Heard>)
    requires Placed(w) && Early(w.pc) && WorkStep(w, o, f).Some? && s != [] && s[0] == Heard(o, f)
    ensures Remaining(w, s) == Remaining(WorkStep(w, o, f).value, s[1..])
  {
  }

  lemma DispatchRemains(w: Worker, o: Outcome, f: Flags, s: seq<Heard>)
    requires Placed(w) && w.pc.Dispatching? && WorkStep(w, o, f).Some? && s != [] && s[0] == Heard(o, f)
    ensures Remaining(w, s) == Remaining(WorkStep(w, o, f).value, s[1..])
  {
  }

  lemma ExchangeRemains(w: Worker, o: Outcome, f: Flags, s: seq<Heard>)
    requires Placed(w) && (w.pc.Preparing? || w.pc.Transferring? || w.pc.Consuming?)
    requires WorkStep(w, o, f).Some? && s != [] && s[0] == Heard(o, f)
    ensures Remaining(w, s) == Remaining(WorkStep(w, o, f).value, s[1..])
  {
  }

  lemma LeavingRemains(w: Worker, o: Outcome, f: Flags, s: seq<Heard>)
    requires Placed(w) && w.pc.LeavingExchange? && WorkStep(w, o, f).Some? && s != [] && s[0] == Heard(o, f)
    ensures Remaining(w, s) == Remaining(WorkStep(w, o, f).value, s[1..])
  {
  }

  lemma LateRemains(w: Worker, o: Outcome, f: Flags, s: seq<Heard>)
    requires Placed(w) && (w.pc.Calling? || w.pc.Writing? || w.pc.Ending? || w.pc.Releasing?)
    requires WorkStep(w, o, f).Some? && s != [] && s[0] == Heard(o, f)
    ensures Remaining(w, s) == Remaining(WorkStep(w, o, f).value, s[1..])
  {
  }

  lemma MoveRemains(w: Worker, o: Outcome, f: Flags, s: seq<Heard>)
    requires Placed(w) && !Recording(w.pc) && WorkStep(w, o, f).Some? && s != [] && s[0] == Heard(o, f)
    ensures Remaining(w, s) == Remaining(WorkStep(w, o, f).value, s[1..])
  {
    if Early(w.pc) {
      EarlyRemains(w, o, f, s);
    } else if w.pc.Dispatching? {
      DispatchRemains(w, o, f, s);
    } else if w.pc.Preparing? || w.pc.Transferring? || w.pc.Consuming? {
      ExchangeRemains(w, o, f, s);
    } else if w.pc.LeavingExchange? {
      LeavingRemains(w, o, f, s);
    } else {
      LateRemains(w, o, f, s);
    }
  }

  lemma RecordPlaced(w: Worker)
    requires Placed(w) && Recording(w.pc)
    ensures Placed(RecordStep(w))
  {
    RecordStepOk(w);
  }

  lemma MovePlaced(w: Worker, o: Outcome, f: Flags)
    requires Placed(w) && !Recording(w.pc) && WorkStep(w, o, f).Some?
    ensures Placed(WorkStep(w, o, f).value)
  {
    WorkStepOk(w, o, f);
    WorkStepPlain(w, o, f);
    MoveNamed(w, o, f);
  }

  lemma MoveNamed(w: Worker, o: Outcome, f: Flags)
    requires Placed(w) && !Recording(w.pc) && WorkStep(w, o, f).Some?
    ensures
      var next := WorkStep(w, o, f).value;
      && (next.pc.Admitting? ==> next.pc.command == next.job.command) && (next.pc.RecordingCommand? ==> next.pc.command != Unnamed)
      && (Unread(next.pc) ==> next.job.command == Unnamed)
      && (next.pc.LeavingExchange? && next.pc.end.Returned? ==> next.answered == Some(next.pc.end.ok))
  {
    if !Early(w.pc) {
      if w.pc.Dispatching? {
        DispatchNamed(w, w.pc.command, o);
      }
    }
  }

  lemma DispatchNamed(w: Worker, command: Command, o: Outcome)
    requires Dispatch(w, command, o).Some?
    ensures
      var pc := Dispatch(w, command, o).value.pc;
      pc.Caught? || pc.Calling? || pc.Claiming? || pc.RecordingOutcome?
  {
  }

  // ----- Runs

  function FlagsOf(s: Sys): Flags { Flags(s.stopping, s.cleanupFailed, s.artifact.None?) }

  /** What a worker meets in one action, and in a run. */
  function HeardIn(s: Sys, a: Action, w: nat): seq<Heard> {
    if a.Work? && a.worker == w && w < |s.workers| && !Recording(s.workers[w].pc) then [Heard(a.outcome, FlagsOf(s))] else []
  }

  function Script(c: Config, s: Sys, actions: seq<Action>, w: nat): seq<Heard>
    requires Runs(c, s, actions)
    decreases |actions|
  {
    if actions == [] then [] else HeardIn(s, actions[0], w) + Script(c, Next(c, s, actions[0]).value, actions[1..], w)
  }

  ghost predicate AllPlaced(s: Sys) { forall w :: 0 <= w < |s.workers| ==> Placed(s.workers[w]) }

  /** One action, as far as one worker is concerned. */
  lemma StepRemains(c: Config, s: Sys, a: Action, w: nat, rest: seq<Heard>)
    requires Inv(c, s) && AllPlaced(s) && Next(c, s, a).Some? && w < |s.workers|
    ensures
      var s' := Next(c, s, a).value;
      && w < |s'.workers|
      && Remaining(s.workers[w], HeardIn(s, a, w) + rest) == Remaining(s'.workers[w], rest)
  {
    assert [] + rest == rest;
    if a.Work? && a.worker == w {
      if Recording(s.workers[w].pc) {
        RecordsTable(c, s, w);
        RecordRemains(s.workers[w], rest);
      } else {
        assert ([Heard(a.outcome, FlagsOf(s))] + rest)[1..] == rest;
        MoveRemains(s.workers[w], a.outcome, FlagsOf(s), [Heard(a.outcome, FlagsOf(s))] + rest);
      }
    }
  }

  lemma StepPlaced(c: Config, s: Sys, a: Action)
    requires Inv(c, s) && AllPlaced(s) && Next(c, s, a).Some?
    ensures AllPlaced(Next(c, s, a).value)
  {
    if a.Work? {
      if Recording(s.workers[a.worker].pc) {
        RecordsTable(c, s, a.worker);
        RecordPlaced(s.workers[a.worker]);
      } else {
        MovePlaced(s.workers[a.worker], a.outcome, FlagsOf(s));
      }
    }
  }

  lemma StepBoth(c: Config, s: Sys, a: Action)
    requires Inv(c, s) && AllPlaced(s) && Next(c, s, a).Some?
    ensures Inv(c, Next(c, s, a).value) && AllPlaced(Next(c, s, a).value)
  {
    StepKeeps(c, s, a);
    StepPlaced(c, s, a);
  }

  lemma HeardAssociates(a: seq<Heard>, b: seq<Heard>, c: seq<Heard>)
    ensures (a + b) + c == a + (b + c)
  {
  }

  /** The course that a worker is on does not change in a run. */
  ghost predicate OnCourse(w: Worker, s: seq<Heard>, course: Course) { Remaining(w, s) == course }

  lemma StepOnCourse(c: Config, s: Sys, a: Action, w: nat, rest: seq<Heard>, course: Course)
    requires Inv(c, s) && AllPlaced(s) && Next(c, s, a).Some? && w < |s.workers|
    requires OnCourse(s.workers[w], HeardIn(s, a, w) + rest, course)
    ensures w < |Next(c, s, a).value.workers| && OnCourse(Next(c, s, a).value.workers[w], rest, course)
  {
    StepRemains(c, s, a, w, rest);
  }

  lemma {:induction false} RunOnCourse(c: Config, s: Sys, actions: seq<Action>, w: nat, rest: seq<Heard>, course: Course)
    requires Inv(c, s) && AllPlaced(s) && Runs(c, s, actions) && w < |s.workers|
    requires OnCourse(s.workers[w], Script(c, s, actions, w) + rest, course)
    ensures w < |After(c, s, actions).workers| && OnCourse(After(c, s, actions).workers[w], rest, course)
    decreases |actions|
  {
    if actions == [] {
      assert [] + rest == rest;
    } else {
      var a, later := actions[0], actions[1..];
      var s' := Next(c, s, a).value;
      HeardAssociates(HeardIn(s, a, w), Script(c, s', later, w), rest);
      StepBoth(c, s, a);
      StepOnCourse(c, s, a, w, Script(c, s', later, w) + rest, course);
      RunOnCourse(c, s', later, w, rest, course);
    }
  }

  lemma NewOnCourse(script: seq<Heard>)
    ensures OnCourse(NewWorker, script, Serve(script))
  {
  }

  lemma Arrives(c: Config, s: Sys, a: Action, w: nat)
    requires Next(c, s, a).Some? && |s.workers| <= w
    ensures HeardIn(s, a, w) == []
    ensures w < |Next(c, s, a).value.workers| ==> Next(c, s, a).value.workers[w] == NewWorker
  {
  }

  lemma ArrivesOnCourse(c: Config, s: Sys, actions: seq<Action>, w: nat, rest: seq<Heard>)
    requires Inv(c, s) && AllPlaced(s) && Runs(c, s, actions) && w < |s.workers| && s.workers[w] == NewWorker
    ensures w < |After(c, s, actions).workers|
    ensures OnCourse(After(c, s, actions).workers[w], rest, Serve(Script(c, s, actions, w) + rest))
  {
    NewOnCourse(Script(c, s, actions, w) + rest);
    RunOnCourse(c, s, actions, w, rest, Serve(Script(c, s, actions, w) + rest));
  }

  /** A worker that is not there yet starts with nothing. */
  lemma {:induction false} RunServes(c: Config, s: Sys, actions: seq<Action>, w: nat, rest: seq<Heard>)
    requires Inv(c, s) && AllPlaced(s) && Runs(c, s, actions) && |s.workers| <= w < |After(c, s, actions).workers|
    ensures OnCourse(After(c, s, actions).workers[w], rest, Serve(Script(c, s, actions, w) + rest))
    decreases |actions|
  {
    var s', later := Next(c, s, actions[0]).value, actions[1..];
    StepBoth(c, s, actions[0]);
    Arrives(c, s, actions[0], w);
    assert Script(c, s, actions, w) == Script(c, s', later, w);
    if w < |s'.workers| {
      ArrivesOnCourse(c, s', later, w, rest);
    } else {
      RunServes(c, s', later, w, rest);
    }
  }

  /** A worker that is done is at the end of its course. */
  lemma CourseEnds(w: Worker, course: Course)
    requires OnCourse(w, [], course) && !Registered(w.pc)
    ensures course == Over(AccountOf(w))
  {
  }

  /**
    In every interleaving, a worker that is done has left exactly the record that `_serve` leaves
    for what this worker met, made exactly the calls that it makes, and answered what it answers.
   */
  lemma ServesAsWritten(c: Config, actions: seq<Action>, w: nat)
    requires Accepted(c) && Runs(c, Start, actions) && w < |After(c, Start, actions).workers|
    requires !Registered(After(c, Start, actions).workers[w].pc)
    ensures Serve(Script(c, Start, actions, w)) == Over(AccountOf(After(c, Start, actions).workers[w]))
  {
    StartOk(c);
    RunServes(c, Start, actions, w, []);
    assert Script(c, Start, actions, w) + [] == Script(c, Start, actions, w);
    CourseEnds(After(c, Start, actions).workers[w], Serve(Script(c, Start, actions, w)));
  }
}
