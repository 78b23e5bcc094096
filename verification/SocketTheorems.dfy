/**
  What holds in every reachable state of the admin socket, and what its job records mean.
 */
module SocketTheorems {
  import opened Wrappers
  import opened SocketHistory
  import opened SocketWorkers
  import RuntimeTypes

  // ----- One worker

  /** Nothing decided yet. */
  predicate Open(w: Worker) { w.job.status == Running && w.job.delivery == Pending && !w.written }

  /** The record carries the answer that was given. */
  predicate Settled(w: Worker) {
    (w.job.status == Succeeded && w.answered == Some(true)) || (w.job.status == Failed && w.answered == Some(false))
  }

  predicate Answering(w: Worker) { Settled(w) && w.job.delivery == Pending && Called(w, None) }

  /** At most one kind of call was made, and this is what it raised. */
  predicate Called(w: Worker, fault: Option<Fault>) { !(w.executed && w.produced) && w.raised == fault }

  predicate NotCalled(w: Worker) { !w.executed && !w.produced && w.raised.None? }

  predicate Failing(w: Worker, fault: Fault) {
    && Open(w)
    && (NotCalled(w) || Called(w, Some(fault)))
    && (w.executed ==> w.job.phase == Execution) && (w.produced ==> w.job.phase == Download) && (w.raised.Some? ==> w.executed || w.produced)
  }

  /** What the final record says about the call. */
  predicate Honest(w: Worker) {
    && w.job.status != Running && w.job.delivery != Pending
    && (w.job.delivery == Sent <==> w.written) && (w.written ==> Settled(w))
    && (w.job.status == Succeeded ==> w.answered == Some(true))
    && (w.job.status == Failed ==> w.answered == Some(false))
    && (w.executed ==> (w.job.status == Rejected <==> w.raised.Some? && w.raised.value.Protocol?))
    && (w.produced ==> (w.job.status == Rejected <==> w.raised.Some? && !w.raised.value.Other?))
  }

  predicate WorkerOk(w: Worker) {
    match w.pc
    case Consuming => Open(w) && w.executed && Called(w, None) && w.job.phase == Execution
    case Calling => Open(w) && w.executed && Called(w, None) && w.job.phase == Execution
    case Dispatching(_) => Open(w) && NotCalled(w) && w.job.phase == Execution
    case Transferring(command) =>
      && Open(w) && !w.executed && w.raised.None? && (w.produced ==> w.job.phase == Download)
      && (if w.produced then command == Produce else command == Consume)
    case RecordingTransfer(command) => Open(w) && NotCalled(w) && (command == Produce || command == Consume)
    case Preparing(command) => Open(w) && NotCalled(w) && (command == Produce || command == Consume)
    case Acquiring(command) => Open(w) && NotCalled(w) && (command == Produce || command == Consume)
    case Claiming(command) => Open(w) && NotCalled(w) && (command == Produce || command == Consume)
    case LeavingExchange(Returned(ok, _)) => Open(w) && w.answered == Some(ok) && Called(w, None)
    case LeavingExchange(Thrown(fault)) => Failing(w, fault)
    case RecordingOutcome(ok, _) => Open(w) && w.answered == Some(ok) && Called(w, None)
    case Writing => Answering(w) && !w.written
    case RecordingSent => Answering(w) && w.written
    case Caught(fault) => if w.job.status == Running then Failing(w, fault) else Answering(w) && !w.written
    case Ending => Honest(w)
    case Releasing => Honest(w)
    case Gone => Honest(w)
    case Crashed => false
    case _ => Open(w) && NotCalled(w)
  }

  lemma RecordStepOk(w: Worker)
    requires WorkerOk(w) && Recording(w.pc)
    ensures WorkerOk(RecordStep(w)) && RecordStep(w).pc != Gone && !RecordStep(w).pc.Born?
  {
  }

  lemma DispatchOk(w: Worker, command: Command, o: Outcome)
    requires WorkerOk(w) && w.pc == Dispatching(command) && Dispatch(w, command, o).Some?
    ensures WorkerOk(Dispatch(w, command, o).value)
  {
  }

  lemma ExchangeOk(w: Worker, o: Outcome, f: Flags)
    requires WorkerOk(w) && InExchange(w.pc) && !Recording(w.pc) && WorkStep(w, o, f).Some?
    ensures WorkerOk(WorkStep(w, o, f).value)
  {
  }

  predicate Early(pc: Point) {
    pc.Authorizing? || pc.Handshaking? || pc.Reading? || pc.Admitting? || pc.Claiming? || pc.Acquiring?
  }

  lemma EarlyOk(w: Worker, o: Outcome, f: Flags)
    requires WorkerOk(w) && Early(w.pc) && WorkStep(w, o, f).Some?
    ensures WorkerOk(WorkStep(w, o, f).value)
  {
  }

  lemma LateOk(w: Worker, o: Outcome, f: Flags)
    requires WorkerOk(w) && (w.pc.Calling? || w.pc.Writing? || w.pc.Ending? || w.pc.Releasing?) && WorkStep(w, o, f).Some?
    ensures WorkerOk(WorkStep(w, o, f).value)
  {
  }

  lemma WorkStepOk(w: Worker, o: Outcome, f: Flags)
    requires WorkerOk(w) && !Recording(w.pc) && WorkStep(w, o, f).Some?
    ensures WorkerOk(WorkStep(w, o, f).value)
  {
    if InExchange(w.pc) {
      ExchangeOk(w, o, f);
    } else if w.pc.Dispatching? {
      DispatchOk(w, w.pc.command, o);
    } else if Early(w.pc) {
      EarlyOk(w, o, f);
    } else {
      LateOk(w, o, f);
    }
  }

  /** A step that does not record leaves the record alone, and only the release of the slot is the end. */
  predicate Plain(w: Worker, next: Worker) {
    next.job == w.job && !next.pc.Born? && (next.pc.Gone? <==> w.pc.Releasing?)
  }

  lemma DispatchPlain(w: Worker, command: Command, o: Outcome)
    requires w.pc == Dispatching(command) && Dispatch(w, command, o).Some?
    ensures Plain(w, Dispatch(w, command, o).value)
  {
  }

  lemma ExchangePlain(w: Worker, o: Outcome, f: Flags)
    requires InExchange(w.pc) && !Recording(w.pc) && WorkStep(w, o, f).Some?
    ensures Plain(w, WorkStep(w, o, f).value)
  {
  }

  lemma WorkStepPlain(w: Worker, o: Outcome, f: Flags)
    requires !Recording(w.pc) && WorkStep(w, o, f).Some?
    ensures Plain(w, WorkStep(w, o, f).value)
  {
    if InExchange(w.pc) {
      ExchangePlain(w, o, f);
    } else if w.pc.Dispatching? {
      DispatchPlain(w, w.pc.command, o);
    }
  }

  lemma WorkStepRegistered(w: Worker, o: Outcome, f: Flags)
    requires WorkStep(w, o, f).Some? && Registered(WorkStep(w, o, f).value.pc)
    ensures Registered(w.pc)
  {
  }

  /** The exchange is left at one point only. */
  lemma WorkStepLeaves(w: Worker, o: Outcome, f: Flags)
    requires WorkStep(w, o, f).Some? && InExchange(w.pc)
    ensures InExchange(WorkStep(w, o, f).value.pc) <==> !w.pc.LeavingExchange?
  {
  }

  lemma DispatchOutside(w: Worker, command: Command, o: Outcome)
    requires Dispatch(w, command, o).Some?
    ensures !InExchange(Dispatch(w, command, o).value.pc)
  {
  }

  /** It is entered through a free slot. */
  lemma EarlyEnters(w: Worker, o: Outcome, f: Flags)
    requires WorkStep(w, o, f).Some? && Early(w.pc)
    ensures InExchange(WorkStep(w, o, f).value.pc) ==> w.pc.Acquiring? && f.artifactFree && WorkStep(w, o, f).value.pc.Preparing?
  {
  }

  lemma WorkStepEnters(w: Worker, o: Outcome, f: Flags)
    requires WorkStep(w, o, f).Some? && !InExchange(w.pc)
    ensures InExchange(WorkStep(w, o, f).value.pc) ==> w.pc.Acquiring? && f.artifactFree && WorkStep(w, o, f).value.pc.Preparing?
  {
    if w.pc.Dispatching? {
      DispatchOutside(w, w.pc.command, o);
    } else if Early(w.pc) {
      EarlyEnters(w, o, f);
    }
  }

  lemma RecordStepPoints(w: Worker)
    requires Recording(w.pc)
    ensures InExchange(RecordStep(w).pc) <==> InExchange(w.pc)
    ensures Registered(w.pc)
  {
  }

  // ----- Slots, table, artifact slot, stopping

  function Live(s: Sys): set<nat> {
    set w | 0 <= w < |s.workers| && !s.workers[w].pc.Gone?
  }

  predicate Slots(c: Config, s: Sys) {
    s.used == |Live(s)| + (if s.listener.Holding? then 1 else 0) && s.used <= c.maxConnections
  }

  /** Every record is its worker's current one, and a running job has one. */
  ghost predicate TableOk(c: Config, s: Sys) {
    && Distinct(s.history) && |s.history| <= c.historySize
    && (forall id: nat {:trigger Lookup(s.history, id)} :: Lookup(s.history, id).Some? ==> Tracked(s, id))
    && (forall w :: 0 <= w < |s.workers| ==> Listed(s, w))
  }

  predicate Tracked(s: Sys, id: nat) {
    id < |s.workers| && !s.workers[id].pc.Born? && Lookup(s.history, id) == Some(s.workers[id].job)
  }

  predicate Listed(s: Sys, w: nat)
    requires w < |s.workers|
  {
    !s.workers[w].pc.Born? && s.workers[w].job.status == Running ==> Lookup(s.history, w) == Some(s.workers[w].job)
  }

  predicate InExchange(pc: Point) {
    || pc.Preparing? || pc.RecordingTransfer? || pc.Transferring? || pc.RecordingConsumption? || pc.Consuming?
    || pc.LeavingExchange?
  }

  predicate ArtifactOk(s: Sys) {
    && (s.artifact.Some? ==> s.artifact.value < |s.workers|)
    && forall w :: 0 <= w < |s.workers| ==> (InExchange(s.workers[w].pc) <==> s.artifact == Some(w))
  }

  predicate StageOk(s: Sys) {
    match s.stage
    case Serving => true
    case Requested => s.stopping
    case Draining(awaited) => s.stopping && s.listener.Ended? && Awaited(s) <= awaited
    case Closed => s.stopping && s.listener.Ended? && Awaited(s) == {}
  }

  ghost predicate Inv(c: Config, s: Sys) {
    && Accepted(c) && Slots(c, s) && TableOk(c, s) && ArtifactOk(s) && StageOk(s)
    && (forall w :: 0 <= w < |s.workers| ==> WorkerOk(s.workers[w]))
  }

  // ----- A worker records

  lemma RunningJobsAreHeld(c: Config, s: Sys)
    requires Inv(c, s)
    ensures RunningHeld(s.history, Live(s)) && |Live(s)| <= c.historySize
  {
    forall i | 0 <= i < |s.history| && s.history[i].job.status == Running
      ensures s.history[i].id in Live(s)
    {
      LookupAt(s.history, i);
      assert Tracked(s, s.history[i].id);
    }
  }

  /** The table after a recording, without looking at how it was made. */
  predicate Kept(h: seq<Entry>, r: seq<Entry>, w: nat, job: Job, k: nat) {
    if k == w then Lookup(r, k) == Some(job)
    else Lookup(r, k) == Lookup(h, k) || (Lookup(r, k) == None && Forgettable(Lookup(h, k)))
  }

  lemma TableStep(c: Config, s: Sys, w: nat, next: Worker, r: seq<Entry>)
    requires TableOk(c, s) && w < |s.workers| && !next.pc.Born?
    requires Distinct(r) && |r| <= c.historySize
    requires forall k: nat {:trigger Lookup(r, k)} :: Kept(s.history, r, w, next.job, k)
    ensures TableOk(c, s.(workers := s.workers[w := next], history := r))
  {
    var s' := s.(workers := s.workers[w := next], history := r);
    forall id: nat | Lookup(r, id).Some?
      ensures Tracked(s', id)
    {
      assert Kept(s.history, r, w, next.job, id);
      if id != w {
        assert Tracked(s, id);
      }
    }
    forall k | 0 <= k < |s'.workers|
      ensures Listed(s', k)
    {
      assert Kept(s.history, r, w, next.job, k) by {
        var found := Lookup(r, k);
      }
      if k != w {
        assert Listed(s, k);
      }
    }
  }

  lemma RecordsTable(c: Config, s: Sys, w: nat)
    requires Inv(c, s) && w < |s.workers| && Recording(s.workers[w].pc)
    ensures Recorded(s.history, w, RecordStep(s.workers[w]).job, c.historySize).Some?
    ensures TableOk(c, WorkRecords(c, s, w))
  {
    var next := RecordStep(s.workers[w]);
    RunningJobsAreHeld(c, s);
    RecordStepOk(s.workers[w]);
    RecordWorks(s.history, w, next.job, c.historySize, Live(s), w);
    var r := Recorded(s.history, w, next.job, c.historySize).value;
    forall k: nat
      ensures Kept(s.history, r, w, next.job, k)
    {
      RecordWorks(s.history, w, next.job, c.historySize, Live(s), k);
    }
    TableStep(c, s, w, next, r);
  }

  // ----- Frames

  predicate OnlyMoved(s: Sys, s': Sys, w: nat) {
    && w < |s.workers| == |s'.workers| && s'.listener == s.listener && s'.stopping == s.stopping && s'.stage == s.stage
    && (forall k :: 0 <= k < |s.workers| && k != w ==> s'.workers[k] == s.workers[k])
  }

  lemma LiveStep(s: Sys, s': Sys, w: nat)
    requires OnlyMoved(s, s', w) && !s.workers[w].pc.Gone?
    ensures Live(s') == if s'.workers[w].pc.Gone? then Live(s) - {w} else Live(s)
    ensures |Live(s')| == |Live(s)| - (if s'.workers[w].pc.Gone? then 1 else 0)
  {
    assert w in Live(s);
  }

  lemma StageStep(s: Sys, s': Sys, w: nat)
    requires StageOk(s) && OnlyMoved(s, s', w) && (Registered(s'.workers[w].pc) ==> Registered(s.workers[w].pc))
    ensures StageOk(s')
  {
    assert Awaited(s') <= Awaited(s);
  }

  lemma ArtifactStep(s: Sys, s': Sys, w: nat)
    requires ArtifactOk(s) && OnlyMoved(s, s', w)
    requires s'.artifact == s.artifact ==> (InExchange(s'.workers[w].pc) <==> InExchange(s.workers[w].pc))
    requires s'.artifact != s.artifact ==>
               || (s.artifact == Some(w) && s'.artifact == None && !InExchange(s'.workers[w].pc))
               || (s.artifact == None && s'.artifact == Some(w) && InExchange(s'.workers[w].pc))
    ensures ArtifactOk(s')
  {
    forall k | 0 <= k < |s'.workers|
      ensures InExchange(s'.workers[k].pc) <==> s'.artifact == Some(k)
    {
      assert InExchange(s.workers[k].pc) <==> s.artifact == Some(k);
    }
  }

  // ----- Steps

  lemma RecordsKeep(c: Config, s: Sys, w: nat)
    requires Inv(c, s) && w < |s.workers| && Recording(s.workers[w].pc)
    ensures Inv(c, WorkRecords(c, s, w))
  {
    var s' := WorkRecords(c, s, w);
    assert WorkerOk(s.workers[w]);
    RecordsTable(c, s, w);
    RecordStepOk(s.workers[w]);
    RecordStepPoints(s.workers[w]);
    LiveStep(s, s', w);
    StageStep(s, s', w);
    ArtifactStep(s, s', w);
  }

  lemma MovesTable(c: Config, s: Sys, w: nat, next: Worker)
    requires TableOk(c, s) && w < |s.workers| && !s.workers[w].pc.Born? && !next.pc.Born? && next.job == s.workers[w].job
    ensures TableOk(c, s.(workers := s.workers[w := next]))
  {
    var s' := s.(workers := s.workers[w := next]);
    forall id: nat | Lookup(s.history, id).Some?
      ensures Tracked(s', id)
    {
      assert Tracked(s, id);
    }
    forall k | 0 <= k < |s'.workers|
      ensures Listed(s', k)
    {
      assert Listed(s, k);
    }
  }

  lemma MovesKeep(c: Config, s: Sys, w: nat, o: Outcome)
    requires Inv(c, s) && w < |s.workers| && !Recording(s.workers[w].pc) && Worked(c, s, w, o).Some?
    ensures Inv(c, Worked(c, s, w, o).value)
  {
    var flags := Flags(s.stopping, s.cleanupFailed, s.artifact.None?);
    var next := WorkStep(s.workers[w], o, flags).value;
    var s' := WorkMoves(s, w, next);
    assert WorkerOk(s.workers[w]);
    WorkStepOk(s.workers[w], o, flags);
    WorkStepPlain(s.workers[w], o, flags);
    if Registered(next.pc) {
      WorkStepRegistered(s.workers[w], o, flags);
    }
    if InExchange(s.workers[w].pc) {
      WorkStepLeaves(s.workers[w], o, flags);
    } else {
      WorkStepEnters(s.workers[w], o, flags);
    }
    MovesTable(c, s, w, next);
    TableFrame(c, s.(workers := s.workers[w := next]), s');
    LiveStep(s, s', w);
    assert w in Live(s);
    StageStep(s, s', w);
    assert InExchange(s.workers[w].pc) <==> s.artifact == Some(w);
    ArtifactStep(s, s', w);
  }

  /** The table's invariant looks at workers and records only. */
  lemma TableFrame(c: Config, s: Sys, s': Sys)
    requires TableOk(c, s) && s'.workers == s.workers && s'.history == s.history
    ensures TableOk(c, s')
  {
    forall id: nat | Lookup(s'.history, id).Some?
      ensures Tracked(s', id)
    {
      assert Tracked(s, id);
    }
    forall k | 0 <= k < |s'.workers|
      ensures Listed(s', k)
    {
      assert Listed(s, k);
    }
  }

  lemma SpawnTable(c: Config, s: Sys)
    requires TableOk(c, s)
    ensures TableOk(c, s.(workers := s.workers + [NewWorker], listener := Listening))
  {
    var s' := s.(workers := s.workers + [NewWorker], listener := Listening);
    forall id: nat | Lookup(s'.history, id).Some?
      ensures Tracked(s', id)
    {
      assert Tracked(s, id);
    }
    forall k | 0 <= k < |s'.workers|
      ensures Listed(s', k)
    {
      if k < |s.workers| {
        assert Listed(s, k);
      }
    }
  }

  lemma SpawnArtifact(s: Sys)
    requires ArtifactOk(s)
    ensures ArtifactOk(s.(workers := s.workers + [NewWorker], listener := Listening))
  {
  }

  lemma AdmitKeeps(c: Config, s: Sys)
    requires Inv(c, s) && s.listener.Holding?
    ensures Inv(c, Admitted(s))
  {
    var s' := Admitted(s);
    if s.stopping {
      TableFrame(c, s, s');
      assert Live(s') == Live(s);
    } else {
      assert Live(s') == Live(s) + {|s.workers|};
      SpawnTable(c, s);
      SpawnArtifact(s);
    }
  }

  /** Every step keeps the invariant. */
  lemma StepKeeps(c: Config, s: Sys, a: Action)
    requires Inv(c, s) && Next(c, s, a).Some?
    ensures Inv(c, Next(c, s, a).value)
  {
    match a
    case Work(w, o) => if Recording(s.workers[w].pc) { RecordsKeep(c, s, w); } else { MovesKeep(c, s, w, o); }
    case Admit => AdmitKeeps(c, s);
    case _ =>
      var s' := Next(c, s, a).value;
      TableFrame(c, s, s');
      assert Live(s') == Live(s) && Awaited(s') == Awaited(s);
  }

  // ----- Every run

  lemma StartOk(c: Config)
    requires Accepted(c)
    ensures Inv(c, Start)
  {
    assert Live(Start) == {};
  }

  lemma {:induction false} RunKeeps(c: Config, s: Sys, actions: seq<Action>)
    requires Inv(c, s) && Runs(c, s, actions)
    ensures Inv(c, After(c, s, actions))
    decreases |actions|
  {
    if actions != [] {
      StepKeeps(c, s, actions[0]);
      RunKeeps(c, Next(c, s, actions[0]).value, actions[1..]);
    }
  }

  /**
    In every interleaving, the next recording of any worker finds room: the table stays within
    its bound, the worker's own record is in it, and every recorded running job keeps its
    record; so no worker ever dies with its slot.
   */
  lemma HistoryNeverStuck(c: Config, actions: seq<Action>, w: nat)
    requires Accepted(c) && Runs(c, Start, actions) && w < |After(c, Start, actions).workers|
    ensures !After(c, Start, actions).workers[w].pc.Crashed?
    ensures
      var s := After(c, Start, actions);
      && |s.history| <= c.historySize
      && (!s.workers[w].pc.Born? && s.workers[w].job.status == Running ==> Lookup(s.history, w) == Some(s.workers[w].job))
      && (Recording(s.workers[w].pc) ==>
            var job := RecordStep(s.workers[w]).job;
            var h := Recorded(s.history, w, job, c.historySize);
            && h.Some? && |h.value| <= c.historySize && Lookup(h.value, w) == Some(job)
            && (forall k: nat :: k != w && Lookup(h.value, k) != Lookup(s.history, k) ==> Forgettable(Lookup(s.history, k))))
  {
    StartOk(c);
    RunKeeps(c, Start, actions);
    var s := After(c, Start, actions);
    assert WorkerOk(s.workers[w]) && Listed(s, w);
    if Recording(s.workers[w].pc) {
      RoomForRecord(c, s, w);
    }
  }

  lemma RoomForRecord(c: Config, s: Sys, w: nat)
    requires Inv(c, s) && w < |s.workers| && Recording(s.workers[w].pc)
    ensures
      var job := RecordStep(s.workers[w]).job;
      var h := Recorded(s.history, w, job, c.historySize);
      && h.Some? && |h.value| <= c.historySize && Lookup(h.value, w) == Some(job)
      && (forall k: nat :: k != w && Lookup(h.value, k) != Lookup(s.history, k) ==> Forgettable(Lookup(s.history, k)))
  {
    RunningJobsAreHeld(c, s);
    var job := RecordStep(s.workers[w]).job;
    RecordWorks(s.history, w, job, c.historySize, Live(s), w);
    forall k: nat | k != w && Lookup(Recorded(s.history, w, job, c.historySize).value, k) != Lookup(s.history, k)
      ensures Forgettable(Lookup(s.history, k))
    {
      RecordWorks(s.history, w, job, c.historySize, Live(s), k);
    }
  }

  /** What a status query answers: the history's record, else the runtime's job of that id, else nothing. */
  datatype Answer = Remembered(job: Job) | FromRuntime(durable: RuntimeTypes.Job) | UnknownJob

  function QueryStatus(h: seq<Entry>, id: nat, durable: Option<RuntimeTypes.Job>): Answer {
    match Lookup(h, id)
    case Some(job) => Remembered(job)
    case None => if durable.Some? && durable.value.id == id then FromRuntime(durable.value) else UnknownJob
  }

  /**
    In every reachable state a query for a job that still runs is answered with that job's present
    record. Any other job is answered so while it is remembered, then as the runtime has it, if it
    does; a job is unknown only when it was never recorded, or is finished and not the runtime's.
   */
  lemma QueryIsTruthful(c: Config, actions: seq<Action>, id: nat, durable: Option<RuntimeTypes.Job>)
    requires Accepted(c) && Runs(c, Start, actions)
    ensures
      var s := After(c, Start, actions);
      var recorded := id < |s.workers| && !s.workers[id].pc.Born?;
      && (recorded && s.workers[id].job.status == Running ==> QueryStatus(s.history, id, durable) == Remembered(s.workers[id].job))
      && match QueryStatus(s.history, id, durable)
         case Remembered(job) => recorded && job == s.workers[id].job
         case FromRuntime(job) => durable == Some(job) && job.id == id && (recorded ==> s.workers[id].job.status != Running)
         case UnknownJob =>
           (recorded ==> s.workers[id].job.status != Running) && (durable.Some? ==> durable.value.id != id)
  {
    StartOk(c);
    RunKeeps(c, Start, actions);
    var s := After(c, Start, actions);
    if Lookup(s.history, id).Some? {
      assert Tracked(s, id);
    }
    if id < |s.workers| {
      assert Listed(s, id);
    }
  }

  /** Connections are bounded by the slots, and at most one of them exchanges an artifact. */
  lemma SlotsAreBounded(c: Config, actions: seq<Action>, v: nat, w: nat)
    requires Accepted(c) && Runs(c, Start, actions)
    ensures
      var s := After(c, Start, actions);
      && |Live(s)| <= s.used <= c.maxConnections
      && (Live(s) == {} && !s.listener.Holding? ==> s.used == 0)
      && (v < |s.workers| && w < |s.workers| && InExchange(s.workers[v].pc) && InExchange(s.workers[w].pc) ==> v == w)
  {
    StartOk(c);
    RunKeeps(c, Start, actions);
  }

  // ----- What a record says

  /**
    A worker that is done has decided: a success or a failure is the answer that was given, the
    delivery is `sent` exactly when the result frame was written and then only with such an
    answer. A call that was made is reported `rejected` exactly when that call raised the
    transport's own error; a production that was begun, also when the connection failed it.
   */
  lemma OutcomesAreHonest(c: Config, actions: seq<Action>, w: nat)
    requires Accepted(c) && Runs(c, Start, actions) && w < |After(c, Start, actions).workers|
    requires !Registered(After(c, Start, actions).workers[w].pc)
    ensures
      var worker := After(c, Start, actions).workers[w];
      var job := worker.job;
      && job.status != Running && job.delivery != Pending
      && (job.delivery == Sent <==> worker.written)
      && (job.delivery == Sent ==> job.status == Succeeded || job.status == Failed)
      && (job.status == Succeeded ==> worker.answered == Some(true))
      && (job.status == Failed ==> worker.answered == Some(false))
      && (worker.executed ==> (job.status == Rejected <==> worker.raised.Some? && worker.raised.value.Protocol?))
      && (worker.produced ==> (job.status == Rejected <==> worker.raised.Some? && !worker.raised.value.Other?))
  {
    StartOk(c);
    RunKeeps(c, Start, actions);
    assert WorkerOk(After(c, Start, actions).workers[w]);
  }

  /** A decision stays; only an unexpected failure while answering turns it to unknown, and a delivery is final. */
  predicate JobAdvances(j: Job, j': Job) {
    && (j.status != Running ==> j'.status == j.status || (j'.status == Unknown && j.delivery == Pending))
    && (j.status == Rejected || j.status == Unknown ==> j'.status == j.status)
    && (j.delivery != Pending ==> j' == j)
  }

  lemma RecordStepAdvances(w: Worker)
    requires WorkerOk(w) && Recording(w.pc)
    ensures JobAdvances(w.job, RecordStep(w).job)
  {
  }

  lemma StepAdvances(c: Config, s: Sys, a: Action, w: nat)
    requires Inv(c, s) && Next(c, s, a).Some? && w < |s.workers|
    ensures w < |Next(c, s, a).value.workers| && JobAdvances(s.workers[w].job, Next(c, s, a).value.workers[w].job)
  {
    if a.Work? && a.worker == w {
      assert WorkerOk(s.workers[w]);
      if Recording(s.workers[w].pc) {
        RecordStepAdvances(s.workers[w]);
      } else {
        WorkStepPlain(s.workers[w], a.outcome, Flags(s.stopping, s.cleanupFailed, s.artifact.None?));
      }
    }
  }

  /** No job ever runs again, whatever happens after. */
  lemma {:induction false} DecisionsStay(c: Config, s: Sys, actions: seq<Action>, w: nat)
    requires Inv(c, s) && Runs(c, s, actions) && w < |s.workers|
    ensures w < |After(c, s, actions).workers| && JobAdvances(s.workers[w].job, After(c, s, actions).workers[w].job)
    decreases |actions|
  {
    if actions != [] {
      StepKeeps(c, s, actions[0]);
      StepAdvances(c, s, actions[0], w);
      DecisionsStay(c, Next(c, s, actions[0]).value, actions[1..], w);
    }
  }

  // ----- Stopping

  lemma ClosedStep(c: Config, s: Sys, a: Action)
    requires Inv(c, s) && s.stage.Closed? && Next(c, s, a).Some?
    ensures Next(c, s, a).value.stage.Closed? && Next(c, s, a).value.history == s.history
  {
    if a.Work? {
      assert a.worker !in Awaited(s);
      assert !Registered(s.workers[a.worker].pc);
    }
  }

  /** Once `stop` has given up the path, no worker touches a job again. */
  lemma {:induction false} StopDrains(c: Config, s: Sys, actions: seq<Action>)
    requires Inv(c, s) && s.stage.Closed? && Runs(c, s, actions)
    ensures After(c, s, actions).stage.Closed? && After(c, s, actions).history == s.history
    ensures forall w :: 0 <= w < |After(c, s, actions).workers| ==> !Registered(After(c, s, actions).workers[w].pc)
    decreases |actions|
  {
    if actions == [] {
      assert forall w :: 0 <= w < |s.workers| ==> (Registered(s.workers[w].pc) <==> w in Awaited(s));
    } else {
      StepKeeps(c, s, actions[0]);
      ClosedStep(c, s, actions[0]);
      StopDrains(c, Next(c, s, actions[0]).value, actions[1..]);
    }
  }
}
