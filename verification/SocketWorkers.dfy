/**
  The admin socket as a transition system: one listener, any number of workers, a stopping
  caller. One action is one section under the lock, one semaphore operation, or the end of a
  foreign call (the peer, the application, a package service) in one of its possible ways.
 */
module SocketWorkers {
  import opened Wrappers
  import opened SocketHistory

  /** The transport's own error with its phase, an operating system error, anything else. */
  datatype Fault = Protocol(phase: Phase) | Os | Other

  datatype ErrorClass = NotReady | InvalidRequest | CleanupFailed | OtherClass

  datatype Outcome =
    | Fine
    | Requests(command: Command)
    | Answers(ok: bool, error: ErrorClass)
    | Raises(fault: Fault)

  /** How an artifact exchange ends. */
  datatype End = Returned(ok: bool, error: ErrorClass) | Thrown(fault: Fault)

  /** Program points of `_serve`. */
  datatype Point =
    | Born
    | Authorizing
    | RecordingHandshake
    | Handshaking
    | RecordingValidation
    | Reading
    | RecordingCommand(command: Command)
    | Admitting(command: Command)
    | RecordingExecution(command: Command)
    | Dispatching(command: Command)
    | Claiming(command: Command)
    | Acquiring(command: Command)
    | Preparing(command: Command)
    | RecordingTransfer(command: Command)
    | Transferring(command: Command)
    | RecordingConsumption
    | Consuming
    | LeavingExchange(end: End)
    | Calling
    | RecordingOutcome(ok: bool, error: ErrorClass)
    | Writing
    | RecordingSent
    | Caught(fault: Fault)
    | Ending
    | Releasing
    | Gone
    | Crashed

  /**
    A worker and its job record. The rest is history: whether the application or a package
    consumer was called, whether the production of a package was begun, what that call raised,
    what was answered, and whether the result frame was written.
   */
  datatype Worker = Worker(
    pc: Point,
    job: Job,
    executed: bool,
    produced: bool,
    raised: Option<Fault>,
    answered: Option<bool>,
    written: bool)

  const NewWorker := Worker(Born, NewJob, false, false, None, None, false)

  function At(w: Worker, pc: Point): Worker { w.(pc := pc) }

  // ----- Recording steps

  predicate Recording(pc: Point) {
    || pc.Born? || pc.RecordingHandshake? || pc.RecordingValidation? || pc.RecordingCommand? || pc.RecordingExecution?
    || pc.RecordingTransfer? || pc.RecordingConsumption? || pc.RecordingOutcome? || pc.RecordingSent? || pc.Caught?
  }

  function OutcomePhase(ok: bool, error: ErrorClass): Phase {
    if ok then Execution
    else match error
      case NotReady => Lifecycle
      case InvalidRequest => Validation
      case _ => Execution
  }

  /** The record after an exception, as each handler of `_serve` writes it. */
  function AfterFault(job: Job, fault: Fault): Job {
    match fault
    case Protocol(phase) =>
      job.(phase := phase, delivery := Lost, status := if job.status == Running then Rejected else job.status)
    case Os =>
      if job.status == Running
      then job.(status := if job.phase == Execution then Unknown else Rejected, delivery := Lost)
      else job.(phase := Transfer, delivery := Lost)
    case Other => job.(status := Unknown, phase := Execution, delivery := Lost)
  }

  /** What `_record` is called with, and where the worker goes on. */
  function RecordStep(w: Worker): Worker
    requires Recording(w.pc)
  {
    match w.pc
    case Born => At(w, Authorizing)
    case RecordingHandshake => At(w.(job := w.job.(phase := Handshake)), Handshaking)
    case RecordingValidation => At(w.(job := w.job.(phase := Validation)), Reading)
    case RecordingCommand(command) => At(w.(job := w.job.(command := command)), Admitting(command))
    case RecordingExecution(command) => At(w.(job := w.job.(phase := Execution)), Dispatching(command))
    case RecordingTransfer(command) =>
      At(w.(job := w.job.(phase := if command == Produce then Download else Upload), produced := command == Produce), Transferring(command))
    case RecordingConsumption => At(w.(job := w.job.(phase := Execution), executed := true), Consuming)
    case RecordingOutcome(ok, error) =>
      At(w.(job := w.job.(status := if ok then Succeeded else Failed, phase := OutcomePhase(ok, error))), Writing)
    case RecordingSent => At(w.(job := w.job.(delivery := Sent)), Ending)
    case Caught(fault) => At(w.(job := AfterFault(w.job, fault)), Ending)
  }

  // ----- Other steps

  datatype Flags = Flags(stopping: bool, cleanupFailed: bool, artifactFree: bool)

  /** A foreign call that returns or raises. */
  function Attempt(w: Worker, o: Outcome, next: Point): Option<Worker> {
    match o
    case Fine => Some(At(w, next))
    case Raises(fault) => Some(At(w, Caught(fault)))
    case _ => None
  }

  function FaultOf(o: Outcome): Option<Fault> { if o.Raises? then Some(o.fault) else None }

  function WorkStep(w: Worker, o: Outcome, f: Flags): Option<Worker> {
    match w.pc
    case Authorizing => Attempt(w, o, RecordingHandshake)
    case Handshaking => Attempt(w, o, RecordingValidation)
    case Reading =>
      if o.Requests?
      then Some(At(w, if o.command == Unnamed then Admitting(Unnamed) else RecordingCommand(o.command)))
      else if o.Raises? then Some(At(w, Caught(o.fault))) else None
    case Admitting(command) =>
      Some(At(w, if f.stopping then Caught(Protocol(Lifecycle)) else RecordingExecution(command)))
    case Dispatching(command) => Dispatch(w, command, o)
    case Claiming(command) =>
      Some(At(w, if f.cleanupFailed then Caught(Protocol(Lifecycle)) else Acquiring(command)))
    case Acquiring(command) =>
      Some(At(w, if f.artifactFree then Preparing(command) else Caught(Protocol(Lifecycle))))
    case Preparing(command) =>
      if o.Fine? then Some(At(w, RecordingTransfer(command))) else if o.Answers? && o.ok then None else Exchange(w, o)
    case Transferring(command) =>
      if command != Consume then Exchange(w.(raised := FaultOf(o)), o)
      else if o.Fine? then Some(At(w, RecordingConsumption))
      else if o.Answers? && o.ok then None else Exchange(w, o)
    case Consuming => Exchange(w.(raised := FaultOf(o)), o)
    case LeavingExchange(end) =>
      Some(At(w, if end.Returned? then RecordingOutcome(end.ok, end.error) else Caught(end.fault)))
    case Calling => Answered(w.(raised := FaultOf(o)), o)
    case Writing => if o.Fine? then Some(At(w.(written := true), RecordingSent)) else Attempt(w, o, RecordingSent)
    case Ending => Some(At(w, Releasing))
    case Releasing => Some(At(w, Gone))
    case _ => None
  }

  /** After the audit event: each kind of command is checked, then handed on. */
  function Dispatch(w: Worker, command: Command, o: Outcome): Option<Worker> {
    if o.Raises? then Some(At(w, Caught(o.fault)))
    else match command
      case Unnamed => if o.Fine? then Some(At(w, Caught(Protocol(Validation)))) else None
      case Control => if o.Fine? then Some(At(w.(executed := true), Calling)) else None
      case JobStatus => if o == Answers(true, OtherClass) then Answered(w, o) else None
      case _ => if o.Fine? then Some(At(w, Claiming(command))) else None
  }

  function Answered(w: Worker, o: Outcome): Option<Worker> {
    match o
    case Answers(ok, error) => Some(At(w.(answered := Some(ok)), RecordingOutcome(ok, error)))
    case Raises(fault) => Some(At(w, Caught(fault)))
    case _ => None
  }

  function Exchange(w: Worker, o: Outcome): Option<Worker> {
    match o
    case Answers(ok, error) => Some(At(w.(answered := Some(ok)), LeavingExchange(Returned(ok, error))))
    case Raises(fault) => Some(At(w, LeavingExchange(Thrown(fault))))
    case _ => None
  }

  // ----- The system

  datatype Listener = Listening | Holding | Ended

  datatype StopStage = Serving | Requested | Draining(awaited: set<nat>) | Closed

  datatype Config = Config(maxConnections: nat, historySize: nat)

  /** The limits the configuration accepts. */
  predicate Accepted(c: Config) {
    1 <= c.maxConnections <= 64 && c.maxConnections <= c.historySize <= 4096
  }

  datatype Sys = Sys(
    used: nat,
    listener: Listener,
    workers: seq<Worker>,
    history: seq<Entry>,
    stopping: bool,
    stage: StopStage,
    artifact: Option<nat>,
    cleanupFailed: bool)

  const Start := Sys(0, Listening, [], [], false, Serving, None, false)

  datatype Action =
    | Accept
    | Admit
    | ListenerEnds
    | Work(worker: nat, outcome: Outcome)
    | RequestStop
    | JoinListener
    | StopTimeout
    | ClosePath

  /** Still registered in `_workers`. */
  predicate Registered(pc: Point) { !pc.Releasing? && !pc.Gone? }

  function Awaited(s: Sys): set<nat> {
    set w | 0 <= w < |s.workers| && Registered(s.workers[w].pc)
  }

  function Next(c: Config, s: Sys, a: Action): Option<Sys> {
    match a
    case Accept =>
      if s.listener.Listening? && s.used < c.maxConnections then Some(s.(used := s.used + 1, listener := Holding)) else None
    case Admit => if s.listener.Holding? then Some(Admitted(s)) else None
    case ListenerEnds => if s.listener.Listening? then Some(s.(listener := Ended)) else None
    case Work(w, o) => if w < |s.workers| then Worked(c, s, w, o) else None
    case RequestStop => if s.stage.Serving? then Some(s.(stopping := true, stage := Requested)) else None
    case JoinListener =>
      if s.stage.Requested? && s.listener.Ended? then Some(s.(stage := Draining(Awaited(s)))) else None
    case StopTimeout => if s.stage.Draining? then Some(s.(stage := Requested)) else None
    case ClosePath =>
      if s.stage.Draining? && s.stage.awaited !! Awaited(s) then Some(s.(stage := Closed)) else None
  }

  /** The listener's locked section: a stopping socket gives the slot back. */
  function Admitted(s: Sys): Sys {
    if s.stopping then s.(used := if s.used > 0 then s.used - 1 else 0, listener := Ended)
    else s.(workers := s.workers + [NewWorker], listener := Listening)
  }

  function Worked(c: Config, s: Sys, w: nat, o: Outcome): Option<Sys>
    requires w < |s.workers|
  {
    if Recording(s.workers[w].pc) then Some(WorkRecords(c, s, w))
    else
      var flags := Flags(s.stopping, s.cleanupFailed, s.artifact.None?);
      var next := WorkStep(s.workers[w], o, flags);
      if next.None? then None else Some(WorkMoves(s, w, next.value))
  }

  /** A recording that fails kills the worker with its slot held. */
  function WorkRecords(c: Config, s: Sys, w: nat): Sys
    requires w < |s.workers| && Recording(s.workers[w].pc)
  {
    var next := RecordStep(s.workers[w]);
    var history := Recorded(s.history, w, next.job, c.historySize);
    if history.None? then s.(workers := s.workers[w := At(s.workers[w], Crashed)])
    else s.(workers := s.workers[w := next], history := history.value)
  }

  /** Everything else a worker does to what it shares: the artifact slot, its flag, its connection slot. */
  function WorkMoves(s: Sys, w: nat, next: Worker): Sys
    requires w < |s.workers|
  {
    var from_ := s.workers[w].pc;
    s.(workers := s.workers[w := next],
    artifact := if from_.Acquiring? && next.pc.Preparing? then Some(w) else if from_.LeavingExchange? then None else s.artifact,
    cleanupFailed := s.cleanupFailed || next.pc == LeavingExchange(Returned(false, CleanupFailed)),
    used := if from_.Releasing? && s.used > 0 then s.used - 1 else s.used)
  }

  predicate Runs(c: Config, s: Sys, actions: seq<Action>)
    decreases |actions|
  {
    actions == [] || (Next(c, s, actions[0]).Some? && Runs(c, Next(c, s, actions[0]).value, actions[1..]))
  }

  function After(c: Config, s: Sys, actions: seq<Action>): Sys
    requires Runs(c, s, actions)
    decreases |actions|
  {
    if actions == [] then s else After(c, Next(c, s, actions[0]).value, actions[1..])
  }
}
