/**
  Vocabulary of the runtime coordinator: lifecycle states, exclusive jobs, the
  durable one-record journal, and the coordinator's own memory together with the
  effect of each section that runs while the coordinator's condition is held.
 */
module RuntimeTypes {
  import opened Wrappers

  datatype RuntimeState =
    | Stopped
    | Initializing
    | Ready
    | Maintenance
    | MigrationRequired
    | Migrating
    | Error
    | Stopping

  datatype Operation = Restore | Migration

  datatype JobStatus = Waiting | Running | Succeeded | Failed | Cancelled | Interrupted

  datatype Job = Job(id: nat, operation: Operation, status: JobStatus, requiresRecovery: bool)

  /** What the journal file holds. `recovery` is the record's own field: it may be missing. */
  datatype Journal =
    | Absent
    | Unreadable
    | Record(id: nat, operation: Operation, status: JobStatus, recovery: Option<bool>)

  datatype Loaded = NoJob | BadJournal | LoadedJob(job: Job)

  /** `_save_job` dumps the job; without one it dumps `null`, which cannot be loaded again. */
  function Encode(job: Option<Job>): Journal {
    match job
    case None => Unreadable
    case Some(j) => Record(j.id, j.operation, j.status, Some(j.requiresRecovery))
  }

  /** `_load_job` up to the status check: only an explicit false clears the recovery demand. */
  function Load(journal: Journal): Loaded {
    match journal
    case Absent => NoJob
    case Unreadable => BadJournal
    case Record(id, operation, status, recovery) => LoadedJob(Job(id, operation, status, recovery != Some(false)))
  }

  /**
    A journal that an initialization which loads it, and tests what it loaded, takes for unfinished
    work: unreadable, demanding recovery itself, or left by a job that was waiting, running or failed.
   */
  predicate DemandsRecovery(journal: Journal) {
    match Load(journal)
    case NoJob => false
    case BadJournal => true
    case LoadedJob(job) => job.requiresRecovery || Unfinished(job.status)
  }

  predicate Unfinished(status: JobStatus) {
    status == Waiting || status == Running || status == Failed
  }

  predicate JobRecovers(job: Option<Job>) { job.Some? && job.value.requiresRecovery }

  /** The coordinator's fields that its sections read and write. */
  datatype Memory = Memory(
    owned: bool,
    state: RuntimeState,
    active: int,
    busy: bool,
    initializing: bool,
    job: Option<Job>)

  const Fresh := Memory(false, Stopped, 0, false, false, None)

  /** `_set_state`: a stopping runtime keeps its state. */
  function SetState(m: Memory, state: RuntimeState): Memory {
    if m.state == Stopping then m else m.(state := state)
  }

  function Claim(m: Memory): Option<Memory> {
    if m.owned then None else Some(m.(owned := true, state := Initializing, busy := false))
  }

  function BeginInitialize(m: Memory): Option<Memory> {
    if !m.owned || m.busy || m.state != Initializing then None
    else Some(m.(busy := true, initializing := true))
  }

  function FinishInitialize(m: Memory, inspected: Option<RuntimeState>): Memory {
    var m' := if inspected.Some? then SetState(m, inspected.value) else m;
    m'.(busy := false, initializing := false)
  }

  function Admit(m: Memory, inherited: bool): Option<Memory> {
    if !inherited && (m.state != Ready || m.busy) then None else Some(m.(active := m.active + 1))
  }

  function InspectStorage(m: Memory): Option<Memory> {
    if m.busy || (m.state != Ready && m.state != MigrationRequired) then None
    else Some(m.(active := m.active + 1))
  }

  function Leave(m: Memory): Memory {
    m.(active := m.active - 1)
  }

  function StateOf(operation: Operation): RuntimeState {
    if operation == Migration then Migrating else Maintenance
  }

  function BeginOperation(m: Memory, operation: Operation, id: nat): Option<Memory> {
    if m.busy || m.state == Stopped || m.state == Stopping || m.state == Initializing then None
    else
      var carried := m.job.Some? && m.job.value.requiresRecovery;
      Some(m.(
        busy := true,
        state := StateOf(operation),
        job := Some(Job(id, operation, Waiting, m.state == Error || carried))))
  }

  /** The same section when the given job id cannot be parsed: it raises half way through. */
  function BeginUnnamed(m: Memory, operation: Operation): Option<Memory> {
    if BeginOperation(m, operation, 0).None? then None else Some(m.(busy := true, state := StateOf(operation)))
  }

  datatype DrainVerdict = KeepWaiting | Refuse | Proceed(memory: Memory)

  predicate CalledOff(m: Memory) {
    m.state == Stopping || (m.job.Some? && m.job.value.status == Cancelled)
  }

  /** One pass of `_drain`'s loop, from waking up to the next wait or to leaving it. */
  function Drain(m: Memory): DrainVerdict {
    if CalledOff(m) then Refuse
    else if m.active != 0 || m.job.None? then KeepWaiting
    else Proceed(m.(job := Some(m.job.value.(status := Running, requiresRecovery := true))))
  }

  function Cancel(m: Memory, id: nat): Option<Memory> {
    if !m.busy || m.job.None? || m.job.value.id != id || m.job.value.status != Waiting then None
    else Some(m.(job := Some(m.job.value.(status := Cancelled))))
  }

  function FinishJob(m: Memory, status: JobStatus): Memory {
    if m.job.None? then m
    else
      var recovery := status != Succeeded
                      && (status == Failed || status == Interrupted || m.job.value.requiresRecovery);
      m.(job := Some(m.job.value.(status := status, requiresRecovery := recovery)))
  }

  function FinishOperation(m: Memory, inspected: bool): Memory {
    (if inspected then SetState(m, Ready) else m).(busy := false)
  }

  function BeginStop(m: Memory): Option<Memory> {
    if !m.owned then None else Some(m.(state := Stopping))
  }

  predicate Idle(m: Memory) {
    m.active == 0 && !m.busy
  }

  function Release(m: Memory): Memory {
    m.(owned := false, state := Stopped)
  }
}
