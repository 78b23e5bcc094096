/**
  The coordinator as a transition system. One action is one section under the
  condition, one journal step, or one event of the surrounding world (a callback
  returning or raising, a wait timing out, a crash). Any number of callers are in
  flight at once; thread-local code between two sections belongs to the earlier one.
 */
module RuntimeProtocol {
  import opened Wrappers
  import opened RuntimeTypes

  datatype LeaseKind = Root | Ordinary | Inspection

  /** `_Admission` with the lease its context was inherited from; `Root` leases are not counted. */
  datatype Lease = Lease(kind: LeaseKind, parent: Option<nat>, exclusive: bool, active: bool)

  /** `visible` is what a reader sees now, `maybe` everything a crash may leave behind. */
  datatype Disk = Disk(visible: Journal, maybe: set<Journal>)

  /** Progress of one `_save_job`: read the job, replace the file, make its entry durable. */
  datatype SaveStage =
    | Snapshot
    | Replace(job: Option<Job>)
    | Sync(job: Option<Job>)
    | Fault(os: bool)

  /** Program points of a top-level `operation()`. */
  datatype OpPoint =
    | RecordingWaiting(stage: SaveStage, before: RuntimeState)
    | Draining(before: RuntimeState)
    | RecordingRunning(stage: SaveStage, before: RuntimeState)
    | Activating
    | Body
    | Checking
    | Closing(ok: bool)
    | FinishingSucceeded
    | RecordingSucceeded(stage: SaveStage)
    | Failing
    | FinishingFailed
    | RecordingFailed(stage: SaveStage)
    | Aborting(before: RuntimeState)
    | FinishingCancelled(before: RuntimeState)
    | RecordingCancelled(stage: SaveStage, before: RuntimeState)
    | Leaving(returned: bool)

  datatype InitEnd = NeedsRecovery | Broken | Inspected(state: RuntimeState)

  /** Program points of `initialize()`. */
  datatype InitPoint =
    | Locking
    | Loading
    | Normalising
    | FinishingInterrupted
    | RecordingInterrupted(stage: SaveStage)
    | Deciding
    | Preparing
    | Inspecting
    | ClosingInit(end: InitEnd)
    | FailingInit
    | LeavingInit(end: InitEnd)

  /** Program points of an `operation()` called during initialization. */
  datatype NestPoint =
    | Entering(operation: Operation, id: nat)
    | Naming(operation: Operation, id: nat)
    | RecordingStart(stage: SaveStage)
    | NestedBody
    | FinishingNested(ok: bool)
    | RecordingNested(stage: SaveStage, ok: bool)

  /** `root` is the exclusive lease a driver currently holds. */
  datatype Pc =
    | Operating(root: Option<nat>, op: OpPoint)
    | Starting(root: Option<nat>, init: InitPoint)
    | Nesting(nest: NestPoint)
    | Riding
    | StopWaiting(claim: nat)
    | Done(returned: bool)
    | Dead

  datatype TaskKind = Operator | Initializer | NestedOperator | Passenger | Stopper

  /**
    The state an operation found, whether its predecessor's job demanded recovery, whether its own
    drain went through, and whether its finished job demands recovery.
   */
  datatype Past = Past(found: RuntimeState, inherited: bool, drained: bool, demand: bool)

  /**
    What an initialization found: the journal it loaded, whether a `cancel` was accepted between
    loading it and testing its status, whether something failed before `prepare`, and what the
    readiness probe reported after it.
   */
  datatype Start = Start(loaded: Option<Journal>, spared: bool, broke: bool, probed: Option<RuntimeState>)

  /**
    A call in flight, with what happened to it so far. The body of an initialization is `prepare`.
    `saved` is the status in the last record that became durable, since the job was finished if it was.
   */
  datatype Task = Task(
    kind: TaskKind,
    pc: Pc,
    bodyStarted: bool,
    cancelAccepted: bool,
    checked: bool,
    finished: Option<JobStatus>,
    saved: Option<JobStatus>,
    past: Past,
    start: Start)

  function NewTask(kind: TaskKind, pc: Pc): Task {
    Task(kind, pc, false, false, false, None, None, Past(Stopped, false, false, false), Start(None, false, false, None))
  }

  /**
    The whole system. The fields after the disk are history: the call that set `busy`, the
    nested initialization operation under way, whether the last nested body that ended raised,
    whether an exclusive body started since which no recorded one completed, how many claims
    were granted, the claim the last `stop` was called on, and whether a call with an
    unparsable job id left `busy` behind.
   */
  datatype Sys = Sys(
    mem: Memory,
    leases: seq<Lease>,
    tasks: seq<Task>,
    disk: Disk,
    holder: Option<nat>,
    nested: Option<nat>,
    raised: bool,
    damaged: bool,
    claims: nat,
    stopAsked: nat,
    wedged: bool)

  function Boot(journal: Journal): Sys {
    Sys(Fresh, [], [], Disk(journal, {journal}), None, None, false, false, 0, 0, false)
  }

  datatype Outcome = Fine | Fails(os: bool) | Reports(state: RuntimeState)

  datatype Action =
    | DoClaim
    | DoInitialize
    | DoAdmit(parent: Option<nat>)
    | DoInspect
    | EndLease(lease: nat)
    | CallOperation(parent: Option<nat>, operation: Operation, id: nat)
    | CallUnnamed(operation: Operation)
    | DoCancel(id: nat)
    | DoStop
    | Wake(task: nat)
    | StopTimeout(task: nat)
    | Advance(task: nat, outcome: Outcome)
    | Crash(survivor: Journal)

  // ----- Classes of program points

  /** The call owns `busy`. */
  predicate Driver(pc: Pc) { pc.Operating? || pc.Starting? }

  /** `operation` called inside an exclusive body. */
  predicate Frame(pc: Pc) { pc.Nesting? || pc.Riding? }

  /** Code of the caller runs here and may itself call `operation`. */
  predicate CallerCode(pc: Pc) {
    (pc.Operating? && pc.op.Body?) || (pc.Starting? && pc.init.Preparing?)
  }

  predicate ClosesRoot(pc: Pc) {
    (pc.Operating? && pc.op.Closing?) || (pc.Starting? && pc.init.ClosingInit?)
  }

  // ----- Small updates

  function At(s: Sys, t: nat, pc: Pc): Sys requires t < |s.tasks| {
    s.(tasks := s.tasks[t := s.tasks[t].(pc := pc)])
  }

  function Spawn(s: Sys, task: Task): Sys {
    s.(tasks := s.tasks + [task])
  }

  function Open(s: Sys, lease: Lease): Sys {
    s.(leases := s.leases + [lease])
  }

  function Close(s: Sys, l: nat): Sys requires l < |s.leases| {
    s.(leases := s.leases[l := s.leases[l].(active := false)])
  }

  const RootLease := Lease(Root, None, true, true)

  // ----- The actions

  /** Refused calls change nothing and are not actions: `None` means refused or not enabled. */
  function Next(s: Sys, a: Action): Option<Sys> {
    match a
    case DoClaim => ClaimOwner(s)
    case DoInitialize => Initialize(s)
    case DoAdmit(parent) => AdmitLease(s, parent)
    case DoInspect => InspectLease(s)
    case EndLease(l) => CloseLease(s, l)
    case CallOperation(parent, operation, id) =>
      if parent.Some? then CallNested(s, parent.value, operation, id) else CallDriver(s, operation, id)
    case CallUnnamed(operation) => CallWithoutId(s, operation)
    case DoCancel(id) => CancelJob(s, id)
    case DoStop => Stop(s)
    case Wake(t) => WakeStopper(s, t)
    case StopTimeout(t) => GiveUpStop(s, t)
    case Advance(t, outcome) => Move(s, t, outcome)
    case Crash(survivor) => Reboot(s, survivor)
  }

  function ClaimOwner(s: Sys): Option<Sys> {
    var m := RuntimeTypes.Claim(s.mem);
    if m.None? then None else Some(s.(mem := m.value, claims := s.claims + 1))
  }

  function Initialize(s: Sys): Option<Sys> {
    var m := BeginInitialize(s.mem);
    if m.None? then None
    else Some(Open(Spawn(s.(mem := m.value, holder := Some(|s.tasks|), raised := false),
                         NewTask(Initializer, Starting(Some(|s.leases|), Locking))),
                   RootLease))
  }

  /** Work in the context of a finished lease is refused; in that of a live one it is always admitted. */
  function AdmitLease(s: Sys, parent: Option<nat>): Option<Sys> {
    if parent.Some? && !(parent.value < |s.leases| && s.leases[parent.value].active) then None
    else
      var m := Admit(s.mem, parent.Some?);
      if m.None? then None
      else Some(Open(s.(mem := m.value),
                     Lease(Ordinary, parent, parent.Some? && s.leases[parent.value].exclusive, true)))
  }

  function InspectLease(s: Sys): Option<Sys> {
    var m := InspectStorage(s.mem);
    if m.None? then None else Some(Open(s.(mem := m.value), Lease(Inspection, None, false, true)))
  }

  function CloseLease(s: Sys, l: nat): Option<Sys> {
    if l < |s.leases| && s.leases[l].active && !s.leases[l].kind.Root?
    then Some(Close(s.(mem := Leave(s.mem)), l)) else None
  }

  predicate JobRuns(m: Memory) { m.job.Some? && m.job.value.status == Running }

  /**
    `operation` in the context of a lease: nested under an exclusive one, refused under any other.
    While a job runs its body just runs along, without a record of its own.
   */
  function CallNested(s: Sys, p: nat, operation: Operation, id: nat): Option<Sys> {
    if !(p < |s.leases| && s.leases[p].active && s.leases[p].exclusive) then None
    else if s.mem.initializing && !JobRuns(s.mem)
    then Some(Spawn(s.(nested := Some(|s.tasks|)), NewTask(NestedOperator, Nesting(Entering(operation, id)))))
    else Some(Spawn(s.(damaged := true), NewTask(Passenger, Riding).(bodyStarted := true)))
  }

  function CallDriver(s: Sys, operation: Operation, id: nat): Option<Sys> {
    var m := BeginOperation(s.mem, operation, id);
    if m.None? then None
    else
      var task := NewTask(Operator, Operating(None, RecordingWaiting(Snapshot, s.mem.state)));
      var past := Past(s.mem.state, JobRecovers(s.mem.job), false, false);
      Some(Spawn(s.(mem := m.value, holder := Some(|s.tasks|)), task.(past := past)))
  }

  /** `operation` with a job id that cannot be parsed: it raises, and nobody holds what it set. */
  function CallWithoutId(s: Sys, operation: Operation): Option<Sys> {
    var m := BeginUnnamed(s.mem, operation);
    if m.None? then None else Some(s.(mem := m.value, wedged := true))
  }

  function CancelJob(s: Sys, id: nat): Option<Sys> {
    var m := RuntimeTypes.Cancel(s.mem, id);
    if m.None? then None
    else if s.holder.Some? && s.holder.value < |s.tasks|
    then Some(s.(mem := m.value, tasks := s.tasks[s.holder.value := CancelSeen(s.tasks[s.holder.value])]))
    else Some(s.(mem := m.value))
  }

  /** What the driver's history keeps of an accepted `cancel`. */
  function CancelSeen(task: Task): Task {
    if task.kind.Operator? then task.(cancelAccepted := true)
    else if task.pc.Starting? && task.pc.init.Normalising? then task.(start := task.start.(spared := true))
    else task
  }

  function Stop(s: Sys): Option<Sys> {
    var m := BeginStop(s.mem);
    if m.None? then None
    else if Idle(m.value) then Some(Spawn(s.(mem := Release(m.value), stopAsked := s.claims), NewTask(Stopper, Done(true))))
    else Some(Spawn(s.(mem := m.value, stopAsked := s.claims), NewTask(Stopper, StopWaiting(s.claims))))
  }

  /** A waiter does not look at the owner again: without one it fails on the missing registration. */
  function WakeStopper(s: Sys, t: nat): Option<Sys> {
    if !(t < |s.tasks| && s.tasks[t].pc.StopWaiting? && Idle(s.mem)) then None
    else if s.mem.owned then Some(At(s.(mem := Release(s.mem)), t, Done(true)))
    else Some(At(s, t, Done(false)))
  }

  function GiveUpStop(s: Sys, t: nat): Option<Sys> {
    if t < |s.tasks| && s.tasks[t].pc.StopWaiting? && !Idle(s.mem) then Some(At(s, t, Done(false))) else None
  }

  /** Memory and every call are lost; one of the records that may be on disk is found again. */
  function Reboot(s: Sys, survivor: Journal): Option<Sys> {
    if survivor !in s.disk.maybe then None
    else Some(s.(
      mem := Fresh,
      leases := seq(|s.leases|, i requires 0 <= i < |s.leases| => s.leases[i].(active := false)),
      tasks := seq(|s.tasks|, i requires 0 <= i < |s.tasks| => s.tasks[i].(pc := Dead)),
      disk := Disk(survivor, {survivor}),
      holder := None, nested := None, raised := false, wedged := false))
  }

  // ----- Calls in flight

  /** What one step of a call can touch besides the leases: the coordinator, the disk, itself. */
  datatype Local = Local(mem: Memory, disk: Disk, damaged: bool, raised: bool, task: Task)

  function View(s: Sys, t: nat): Local requires t < |s.tasks| {
    Local(s.mem, s.disk, s.damaged, s.raised, s.tasks[t])
  }

  function Put(s: Sys, t: nat, l: Local): Sys requires t < |s.tasks| {
    s.(mem := l.mem, disk := l.disk, damaged := l.damaged, raised := l.raised, tasks := s.tasks[t := l.task])
  }

  function Move(s: Sys, t: nat, o: Outcome): Option<Sys> {
    if |s.tasks| <= t then None
    else match s.tasks[t].pc
      case Operating(root, op) => MoveOperator(s, t, root, op, o)
      case Starting(root, init) => MoveInitializer(s, t, root, init, o)
      case Nesting(nest) => Some(MoveNested(s, t, nest, o))
      case Riding => Some(At(s, t, Done(!o.Fails?)))
      case _ => None
  }

  datatype Saved =
    | InProgress(disk: Disk, stage: SaveStage)
    | Written(disk: Disk, status: Option<JobStatus>)
    | Raised(os: bool)

  /** One step of `_save_job`; a failing step leaves on disk whatever the earlier ones put there. */
  function Save(m: Memory, disk: Disk, stage: SaveStage, o: Outcome): Saved {
    match stage
    case Snapshot => InProgress(disk, Replace(m.job))
    case Replace(job) =>
      if o.Fails? then InProgress(disk, Fault(o.os))
      else InProgress(Disk(Encode(job), disk.maybe + {Encode(job)}), Sync(job))
    case Sync(job) =>
      if o.Fails? then InProgress(disk, Fault(o.os))
      else Written(Disk(Encode(job), {Encode(job)}), if job.Some? then Some(job.value.status) else None)
    case Fault(os) => Raised(os)
  }

  /** `_finish_job` reports a failed write in the state if the operating system raised it. */
  function ErrorIf(m: Memory, os: bool): Memory {
    if os then SetState(m, Error) else m
  }

  // ----- operation()

  function MoveOperator(s: Sys, t: nat, root: Option<nat>, op: OpPoint, o: Outcome): Option<Sys>
    requires t < |s.tasks|
  {
    if op.Closing? then MoveClosing(s, t, root, op.ok)
    else if op.Leaving? then Some(MoveLeaving(s, t, op.returned))
    else if StartsRegion(op, o) then Some(MoveRunning(s, t, op.stage.job))
    else
      var l := OpStep(View(s, t), root, op, o);
      if l.None? then None else Some(Put(s, t, l.value))
  }

  /** The record that the job runs has become durable. */
  predicate StartsRegion(op: OpPoint, o: Outcome) {
    op.RecordingRunning? && op.stage.Sync? && !o.Fails?
  }

  function MoveRunning(s: Sys, t: nat, job: Option<Job>): Sys
    requires t < |s.tasks|
  {
    var saved := Save(s.mem, s.disk, Sync(job), Fine);
    var task := s.tasks[t].(pc := Operating(Some(|s.leases|), Activating), saved := saved.status);
    Open(s.(disk := saved.disk, tasks := s.tasks[t := task]), RootLease)
  }

  function MoveClosing(s: Sys, t: nat, root: Option<nat>, ok: bool): Option<Sys>
    requires t < |s.tasks|
  {
    if root.None? || |s.leases| <= root.value then None
    else Some(At(Close(s, root.value), t, Operating(None, if ok then FinishingSucceeded else Failing)))
  }

  function MoveLeaving(s: Sys, t: nat, returned: bool): Sys
    requires t < |s.tasks|
  {
    At(s.(mem := FinishOperation(s.mem, returned), holder := None), t, Done(returned))
  }

  function OpAt(l: Local, root: Option<nat>, op: OpPoint): Local {
    l.(task := l.task.(pc := Operating(root, op)))
  }

  /** All other steps of an operation. */
  function OpStep(l: Local, root: Option<nat>, op: OpPoint, o: Outcome): Option<Local> {
    if Recording(op) then Some(OpRecording(l, op, op.stage, o))
    else match op
    case Draining(before) => OpDraining(l, before, o)
    case Activating =>
      if o.Fails? then Some(OpAt(l, root, Closing(false)))
      else Some(l.(damaged := true, task := l.task.(pc := Operating(root, Body), bodyStarted := true)))
    case Body => Some(OpAt(l, root, if o.Fails? then Closing(false) else Checking))
    case Checking =>
      if o != Reports(Ready) then Some(OpAt(l, root, Closing(false)))
      else Some(l.(damaged := false, task := l.task.(pc := Operating(root, Closing(true)), checked := true)))
    case FinishingSucceeded => Some(OpFinish(l, Succeeded, RecordingSucceeded(Snapshot)))
    case Failing => Some(OpAt(l.(mem := SetState(l.mem, Error)), None, FinishingFailed))
    case FinishingFailed => Some(OpFinish(l, Failed, RecordingFailed(Snapshot)))
    case Aborting(before) => Some(OpAt(l.(mem := SetState(l.mem, before)), None, FinishingCancelled(before)))
    case FinishingCancelled(before) => Some(OpFinish(l, Cancelled, RecordingCancelled(Snapshot, before)))
    case _ => None
  }

  /** Waking up from the drain's wait; a failing outcome is its deadline. */
  function OpDraining(l: Local, before: RuntimeState, o: Outcome): Option<Local> {
    match Drain(l.mem)
    case Refuse => Some(OpAt(l, None, Aborting(before)))
    case KeepWaiting => if o.Fails? then Some(OpAt(l, None, Aborting(before))) else None
    case Proceed(m) =>
      var task := l.task.(past := l.task.past.(drained := true));
      Some(OpAt(l.(mem := m, task := task), None, RecordingRunning(Snapshot, before)))
  }

  function OpFinish(l: Local, status: JobStatus, op: OpPoint): Local {
    var m := FinishJob(l.mem, status);
    var past := l.task.past.(demand := DemandsRecovery(Encode(m.job)));
    l.(mem := m, task := l.task.(pc := Operating(None, op), finished := Some(status), saved := None, past := past))
  }

  predicate Recording(op: OpPoint) {
    op.RecordingWaiting? || op.RecordingRunning? || op.RecordingSucceeded? || op.RecordingFailed? || op.RecordingCancelled?
  }

  function OpRecording(l: Local, op: OpPoint, stage: SaveStage, o: Outcome): Local
    requires Recording(op)
  {
    match Save(l.mem, l.disk, stage, o)
    case InProgress(disk, stage') => OpAt(l.(disk := disk), None, op.(stage := stage'))
    case Written(disk, status) =>
      l.(disk := disk, task := l.task.(pc := Operating(None, OpWritten(op)), saved := status))
    case Raised(os) =>
      OpAt(if op.RecordingWaiting? || op.RecordingRunning? then l else l.(mem := ErrorIf(l.mem, os)), None, OpRaised(op))
  }

  /** Where `operation` continues once its record is durable. */
  function OpWritten(op: OpPoint): OpPoint {
    if op.RecordingWaiting? then Draining(op.before)
    else if op.RecordingRunning? then Activating
    else Leaving(op.RecordingSucceeded?)
  }

  /** Where `operation` continues when writing its record raised. */
  function OpRaised(op: OpPoint): OpPoint {
    if op.RecordingWaiting? || op.RecordingRunning? then Aborting(op.before)
    else if op.RecordingSucceeded? then Failing
    else Leaving(false)
  }

  // ----- initialize()

  predicate ProbeResult(state: RuntimeState) {
    state == Ready || state == MigrationRequired || state == Error
  }

  function MoveInitializer(s: Sys, t: nat, root: Option<nat>, init: InitPoint, o: Outcome): Option<Sys>
    requires t < |s.tasks|
  {
    if init.ClosingInit? then MoveClosingInit(s, t, root, init.end)
    else if init.LeavingInit? then Some(MoveLeavingInit(s, t, init.end))
    else
      var l := InitStep(View(s, t), root, init, o);
      if l.None? then None else Some(Put(s, t, l.value))
  }

  function MoveClosingInit(s: Sys, t: nat, root: Option<nat>, end: InitEnd): Option<Sys>
    requires t < |s.tasks|
  {
    if root.None? || |s.leases| <= root.value then None
    else Some(At(Close(s, root.value), t, Starting(None, if end.Broken? then FailingInit else LeavingInit(end))))
  }

  function MoveLeavingInit(s: Sys, t: nat, end: InitEnd): Sys
    requires t < |s.tasks|
  {
    var inspected := if end.Inspected? then Some(end.state) else None;
    At(s.(mem := FinishInitialize(s.mem, inspected), holder := None), t, Done(true))
  }

  function InitAt(l: Local, root: Option<nat>, init: InitPoint): Local {
    l.(task := l.task.(pc := Starting(root, init)))
  }

  function InitStep(l: Local, root: Option<nat>, init: InitPoint, o: Outcome): Option<Local> {
    match init
    case Locking => Some(if o.Fails? then InitBreaks(l, root) else InitAt(l, root, Loading))
    case Loading => Some(if o.Fails? then InitBreaks(l, root) else InitLoading(l, root))
    case Normalising =>
      var open := l.mem.job.Some? && Unfinished(l.mem.job.value.status);
      Some(InitAt(l, root, if open then FinishingInterrupted else Deciding))
    case FinishingInterrupted =>
      Some(InitAt(l.(mem := FinishJob(l.mem, Interrupted)), root, RecordingInterrupted(Snapshot)))
    case RecordingInterrupted(stage) => Some(InitRecording(l, root, stage, o))
    case Deciding =>
      if l.mem.job.Some? && l.mem.job.value.requiresRecovery
      then Some(InitAt(l.(mem := SetState(l.mem, Error)), root, ClosingInit(NeedsRecovery)))
      else Some(l.(task := l.task.(pc := Starting(root, Preparing), bodyStarted := true)))
    case Preparing => Some(InitAt(l, root, if o.Fails? then ClosingInit(Broken) else Inspecting))
    case Inspecting =>
      if o.Fails? then Some(InitAt(l, root, ClosingInit(Broken)))
      else if o.Reports? && ProbeResult(o.state) then Some(InitReports(l, root, o.state))
      else None
    case FailingInit => Some(InitAt(l.(mem := SetState(l.mem, Error)), root, LeavingInit(Broken)))
    case _ => None
  }

  function InitReports(l: Local, root: Option<nat>, state: RuntimeState): Local {
    InitAt(l.(task := l.task.(start := l.task.start.(probed := Some(state)))), root, ClosingInit(Inspected(state)))
  }

  /** Something raised before `prepare`. */
  function InitBreaks(l: Local, root: Option<nat>): Local {
    InitAt(l.(task := l.task.(start := l.task.start.(broke := true))), root, ClosingInit(Broken))
  }

  function InitLoading(l: Local, root: Option<nat>): Local {
    var found := l.(task := l.task.(start := l.task.start.(loaded := Some(l.disk.visible))));
    match Load(l.disk.visible)
    case NoJob => InitAt(found.(mem := l.mem.(job := None)), root, Deciding)
    case BadJournal => InitAt(found, root, ClosingInit(Broken))
    case LoadedJob(job) => InitAt(found.(mem := l.mem.(job := Some(job))), root, Normalising)
  }

  function InitRecording(l: Local, root: Option<nat>, stage: SaveStage, o: Outcome): Local {
    match Save(l.mem, l.disk, stage, o)
    case InProgress(disk, stage') => InitAt(l.(disk := disk), root, RecordingInterrupted(stage'))
    case Written(disk, _) => InitAt(l.(disk := disk), root, Deciding)
    case Raised(os) => InitBreaks(l.(mem := ErrorIf(l.mem, os)), root)
  }

  // ----- operation() inside initialize()

  predicate Rides(s: Sys) { exists t :: 0 <= t < |s.tasks| && s.tasks[t].pc.Riding? }

  /** A nested body that returns while a call inside it still runs along has not completed. */
  function MoveNested(s: Sys, t: nat, nest: NestPoint, o: Outcome): Sys
    requires t < |s.tasks|
  {
    var l := NestStep(View(s, t), nest, o);
    var s' := Put(s, t, l).(damaged := l.damaged || (nest.NestedBody? && Rides(s)));
    if l.task.pc.Done? then s'.(nested := None) else s'
  }

  function NestAt(l: Local, pc: Pc): Local {
    l.(task := l.task.(pc := pc))
  }

  function NestStep(l: Local, nest: NestPoint, o: Outcome): Local {
    match nest
    case Entering(operation, id) =>
      NestAt(l.(mem := SetState(l.mem, StateOf(operation))), Nesting(Naming(operation, id)))
    case Naming(operation, id) =>
      NestAt(l.(mem := l.mem.(job := Some(Job(id, operation, Running, true)))), Nesting(RecordingStart(Snapshot)))
    case RecordingStart(stage) => NestStarting(l, stage, o)
    case NestedBody => NestAt(l.(damaged := o.Fails? && l.damaged, raised := o.Fails?), Nesting(FinishingNested(!o.Fails?)))
    case FinishingNested(ok) =>
      var status := if ok then Succeeded else Failed;
      l.(mem := FinishJob(l.mem, status),
      task := l.task.(pc := Nesting(RecordingNested(Snapshot, ok)), finished := Some(status)))
    case RecordingNested(stage, ok) => NestEnding(l, stage, ok, o)
  }

  function NestStarting(l: Local, stage: SaveStage, o: Outcome): Local {
    match Save(l.mem, l.disk, stage, o)
    case InProgress(disk, stage') => NestAt(l.(disk := disk), Nesting(RecordingStart(stage')))
    case Written(disk, _) =>
      l.(disk := disk, damaged := true, task := l.task.(pc := Nesting(NestedBody), bodyStarted := true))
    case Raised(_) => NestAt(l, Done(false))
  }

  function NestEnding(l: Local, stage: SaveStage, ok: bool, o: Outcome): Local {
    match Save(l.mem, l.disk, stage, o)
    case InProgress(disk, stage') => NestAt(l.(disk := disk), Nesting(RecordingNested(stage', ok)))
    case Written(disk, status) => l.(disk := disk, task := l.task.(pc := Done(ok), saved := status))
    case Raised(os) => NestAt(l.(mem := ErrorIf(l.mem, os)), Done(false))
  }

  // ----- Runs

  predicate Enabled(s: Sys, a: Action) { Next(s, a).Some? }

  predicate Runs(s: Sys, actions: seq<Action>)
    decreases |actions|
  {
    actions == [] || (Enabled(s, actions[0]) && Runs(Next(s, actions[0]).value, actions[1..]))
  }

  /** The state a run leads to. */
  function After(s: Sys, actions: seq<Action>): Sys
    requires Runs(s, actions)
    decreases |actions|
  {
    if actions == [] then s else After(Next(s, actions[0]).value, actions[1..])
  }

  // ----- What the coordinator relies on its callers for

  predicate NoFrames(s: Sys) { forall t :: 0 <= t < |s.tasks| ==> !Frame(s.tasks[t].pc) }

  predicate OnlyRoot(s: Sys, root: Option<nat>) {
    forall l :: 0 <= l < |s.leases| && s.leases[l].active ==> root == Some(l)
  }

  /** Operations called inside an exclusive body end before it, leases opened inside end before its root. */
  predicate WellNested(s: Sys, a: Action) {
    a.Advance? && a.task < |s.tasks| ==>
      var pc := s.tasks[a.task].pc;
      (CallerCode(pc) ==> NoFrames(s)) && (ClosesRoot(pc) ==> OnlyRoot(s, pc.root))
  }

  predicate InFrameBody(pc: Pc) { pc.Riding? || pc == Nesting(NestedBody) }

  /** An operation is called inside an exclusive region only by the body that the region is for. */
  predicate CalledInside(s: Sys, a: Action) {
    a.CallOperation? && a.parent.Some? ==>
      s.holder.Some? && s.holder.value < |s.tasks| && CallerCode(s.tasks[s.holder.value].pc)
  }

  /** Operations nested in one body are called one inside the other, not side by side. */
  predicate Stacked(s: Sys, a: Action) {
    a.CallOperation? && a.parent.Some? ==>
      forall t :: 0 <= t < |s.tasks| && Frame(s.tasks[t].pc) ==> InFrameBody(s.tasks[t].pc)
  }

  /** During initialization, a call made while the job runs is made inside the operation that runs it. */
  predicate Covered(s: Sys, a: Action) {
    a.CallOperation? && a.parent.Some? && s.mem.initializing && JobRuns(s.mem) ==> s.nested.Some?
  }

  /** A nested operation's body ends after the calls that run along with it. */
  predicate Ordered(s: Sys, a: Action) {
    a.Advance? && a.task < |s.tasks| && s.tasks[a.task].pc == Nesting(NestedBody) ==> !Rides(s)
  }

  /** `prepare` does not return normally while the last body it ran had raised. */
  predicate Propagates(s: Sys, a: Action) {
    a.Advance? && a.task < |s.tasks| && !a.outcome.Fails? &&
    s.tasks[a.task].pc.Starting? && s.tasks[a.task].pc.init.Preparing? ==>
      !s.raised
  }

  predicate Nested(s: Sys, a: Action) { WellNested(s, a) && CalledInside(s, a) }

  predicate Disciplined(s: Sys, a: Action) {
    Nested(s, a) && Stacked(s, a) && Covered(s, a) && Ordered(s, a) && Propagates(s, a)
  }

  /** A run all of whose steps are well nested. */
  predicate NestedRun(s: Sys, actions: seq<Action>)
    requires Runs(s, actions)
    decreases |actions|
  {
    actions == [] || (Nested(s, actions[0]) && NestedRun(Next(s, actions[0]).value, actions[1..]))
  }

  /** A well-nested run that also meets the conditions of the journal's guarantee. */
  predicate DisciplinedRun(s: Sys, actions: seq<Action>)
    requires Runs(s, actions)
    decreases |actions|
  {
    actions == [] || (Disciplined(s, actions[0]) && DisciplinedRun(Next(s, actions[0]).value, actions[1..]))
  }
}
