/**
  Where the guarantees end: for each condition on the callers a state that is reached by breaking
  it and no other one, and what the code does although all of them are met.
 */
module RuntimeLimits {
  import opened Wrappers
  import opened RuntimeTypes
  import opened RuntimeProtocol
  import opened RuntimeInvariant
  import opened RuntimeDurability
  import opened RuntimeTheorems

  // ----- Runs that break some conditions and keep the others

  datatype Condition = NestsWell | CallsInside | CallsStacked | CallsCovered | EndsOrdered | FailuresPropagate

  predicate Meets(c: Condition, s: Sys, a: Action) {
    match c
    case NestsWell => WellNested(s, a)
    case CallsInside => CalledInside(s, a)
    case CallsStacked => Stacked(s, a)
    case CallsCovered => Covered(s, a)
    case EndsOrdered => Ordered(s, a)
    case FailuresPropagate => Propagates(s, a)
  }

  predicate MeetsOthers(broken: set<Condition>, s: Sys, a: Action) {
    && (NestsWell in broken || Meets(NestsWell, s, a)) && (CallsInside in broken || Meets(CallsInside, s, a))
    && (CallsStacked in broken || Meets(CallsStacked, s, a)) && (CallsCovered in broken || Meets(CallsCovered, s, a))
    && (EndsOrdered in broken || Meets(EndsOrdered, s, a)) && (FailuresPropagate in broken || Meets(FailuresPropagate, s, a))
  }

  /** A run from one state to another, every step of which meets all conditions but the broken ones. */
  predicate Leads(broken: set<Condition>, s0: Sys, run: seq<Action>, s: Sys)
    decreases |run|
  {
    if run == [] then s == s0
    else Enabled(s0, run[0]) && MeetsOthers(broken, s0, run[0]) && Leads(broken, Next(s0, run[0]).value, run[1..], s)
  }

  ghost predicate Reachable(broken: set<Condition>, s0: Sys, s: Sys) {
    exists run :: Leads(broken, s0, run, s)
  }

  lemma {:induction false} LeadsFurther(broken: set<Condition>, s0: Sys, run: seq<Action>, s: Sys, a: Action, s': Sys)
    requires Leads(broken, s0, run, s) && Next(s, a) == Some(s') && MeetsOthers(broken, s, a)
    ensures Leads(broken, s0, run + [a], s')
    decreases |run|
  {
    var longer := run + [a];
    if run == [] {
      assert longer[0] == a && longer[1..] == [];
      assert Leads(broken, s', [], s');
    } else {
      assert longer[0] == run[0] && longer[1..] == run[1..] + [a];
      LeadsFurther(broken, Next(s0, run[0]).value, run[1..], s, a, s');
    }
  }

  /** One more step. */
  lemma Step(broken: set<Condition>, s0: Sys, s: Sys, a: Action, s': Sys)
    requires Reachable(broken, s0, s) && Next(s, a) == Some(s') && MeetsOthers(broken, s, a)
    ensures Reachable(broken, s0, s')
  {
    var run :| Leads(broken, s0, run, s);
    LeadsFurther(broken, s0, run, s, a, s');
  }

  lemma Here(broken: set<Condition>, s0: Sys)
    ensures Reachable(broken, s0, s0)
  {
    assert Leads(broken, s0, [], s0);
  }

  /** What is reached is reached by a run; if nothing is broken, by a disciplined one. */
  lemma {:induction false} LeadsIsRun(broken: set<Condition>, s0: Sys, run: seq<Action>, s: Sys)
    requires Leads(broken, s0, run, s)
    ensures Runs(s0, run) && After(s0, run) == s && (broken == {} ==> DisciplinedRun(s0, run))
    decreases |run|
  {
    if run != [] {
      LeadsIsRun(broken, Next(s0, run[0]).value, run[1..], s);
    }
  }

  lemma ReachableByRun(broken: set<Condition>, s0: Sys, s: Sys) returns (run: seq<Action>)
    requires Reachable(broken, s0, s)
    ensures Runs(s0, run) && After(s0, run) == s && (broken == {} ==> DisciplinedRun(s0, run))
  {
    run :| Leads(broken, s0, run, s);
    LeadsIsRun(broken, s0, run, s);
  }

  /** No condition speaks of the calls and events that are neither steps of a call nor nested operations. */
  lemma Event(cs: set<Condition>, s0: Sys, s: Sys, a: Action, s': Sys)
    requires Reachable(cs, s0, s) && Next(s, a) == Some(s')
    requires !a.Advance? && (a.CallOperation? ==> a.parent.None?)
    ensures Reachable(cs, s0, s')
  {
    Step(cs, s0, s, a, s');
  }

  /** No condition speaks of the other steps of a call. */
  predicate Unwatched(pc: Pc) { !CallerCode(pc) && !ClosesRoot(pc) && pc != Nesting(NestedBody) }

  lemma Go(cs: set<Condition>, s0: Sys, s: Sys, t: nat, o: Outcome, s': Sys)
    requires Reachable(cs, s0, s) && t < |s.tasks| && Unwatched(s.tasks[t].pc) && Move(s, t, o) == Some(s')
    ensures Reachable(cs, s0, s')
  {
    Step(cs, s0, s, Advance(t, o), s');
  }

  /** A step of a nested operation other than the end of its body. */
  lemma GoNested(cs: set<Condition>, s0: Sys, s: Sys, t: nat, l: Local, nest: NestPoint, o: Outcome, l': Local)
    requires t < |s.tasks| && Reachable(cs, s0, Put(s, t, l))
    requires l.task.pc == Nesting(nest) && !nest.NestedBody? && NestStep(l, nest, o) == l'
    ensures Reachable(cs, s0, if l'.task.pc.Done? then Put(s, t, l').(nested := None) else Put(s, t, l'))
  {
    assert View(Put(s, t, l), t) == l;
    PutTwice(s, t, l, l');
    Go(cs, s0, Put(s, t, l), t, o, if l'.task.pc.Done? then Put(s, t, l').(nested := None) else Put(s, t, l'));
  }

  lemma PutTwice(s: Sys, t: nat, l: Local, l': Local)
    requires t < |s.tasks|
    ensures Put(Put(s, t, l), t, l') == Put(s, t, l')
  {
    assert Put(Put(s, t, l), t, l').tasks == Put(s, t, l').tasks;
  }

  lemma PutBack(s: Sys, t: nat)
    requires t < |s.tasks|
    ensures Put(s, t, View(s, t)) == s
  {
  }

  // ----- A fresh instance up to `prepare`

  const Booted := Boot(Absent)

  function Starter(init: InitPoint): Task {
    var task := NewTask(Initializer, Starting(Some(0), init));
    if init == Locking || init == Loading then task
    else task.(bodyStarted := init == Preparing, start := Start(Some(Absent), false, false, None))
  }

  /** Initialization of a fresh instance, at one of its points. */
  function FreshAt(init: InitPoint): Sys {
    Sys(Memory(true, Initializing, 0, true, true, None), [RootLease], [Starter(init)], Disk(Absent, {Absent}),
        Some(0), None, false, false, 1, 0, false)
  }

  lemma FreshStep(from_: InitPoint, to: InitPoint)
    requires (from_ == Locking && to == Loading) || (from_ == Loading && to == Deciding) || (from_ == Deciding && to == Preparing)
    ensures Move(FreshAt(from_), 0, Fine) == Some(FreshAt(to))
  {
    assert [Starter(from_)][0 := Starter(to)] == [Starter(to)];
  }

  lemma ReachInitialize(cs: set<Condition>)
    ensures Reachable(cs, Booted, FreshAt(Locking))
  {
    var s1 := Booted.(mem := Memory(true, Initializing, 0, false, false, None), claims := 1);
    Here(cs, Booted);
    Event(cs, Booted, Booted, DoClaim, s1);
    assert Initialize(s1).value.leases == [RootLease] && Initialize(s1).value.tasks == [Starter(Locking)];
    Event(cs, Booted, s1, DoInitialize, FreshAt(Locking));
  }

  lemma ReachPreparing(cs: set<Condition>)
    ensures Reachable(cs, Booted, FreshAt(Preparing))
  {
    ReachInitialize(cs);
    FreshStep(Locking, Loading);
    Go(cs, Booted, FreshAt(Locking), 0, Fine, FreshAt(Loading));
    FreshStep(Loading, Deciding);
    Go(cs, Booted, FreshAt(Loading), 0, Fine, FreshAt(Deciding));
    FreshStep(Deciding, Preparing);
    Go(cs, Booted, FreshAt(Deciding), 0, Fine, FreshAt(Preparing));
  }

  // ----- A nested operation, undisturbed

  /** The start record of a nested operation about to be written. */
  function Named(l: Local, operation: Operation, id: nat): Local {
    var job := Some(Job(id, operation, Running, true));
    l.(mem := SetState(l.mem, StateOf(operation)).(job := job), task := l.task.(pc := Nesting(RecordingStart(Replace(job)))))
  }

  lemma ReachNamed(cs: set<Condition>, s0: Sys, s: Sys, t: nat, operation: Operation, id: nat)
    requires Reachable(cs, s0, s)
    requires t < |s.tasks| && s.tasks[t].pc == Nesting(Entering(operation, id))
    ensures Reachable(cs, s0, Put(s, t, Named(View(s, t), operation, id)))
  {
    var l := View(s, t);
    PutBack(s, t);
    var l1 := NestStep(l, Entering(operation, id), Fine);
    GoNested(cs, s0, s, t, l, Entering(operation, id), Fine, l1);
    var l2 := NestStep(l1, Naming(operation, id), Fine);
    GoNested(cs, s0, s, t, l1, Naming(operation, id), Fine, l2);
    GoNested(cs, s0, s, t, l2, RecordingStart(Snapshot), Fine, Named(l, operation, id));
  }

  /** A nested operation in its body. */
  function InBody(s: Sys, t: nat, operation: Operation, id: nat): Sys
    requires t < |s.tasks|
  {
    var job := Some(Job(id, operation, Running, true));
    s.(mem := SetState(s.mem, StateOf(operation)).(job := job),
    disk := Disk(Encode(job), {Encode(job)}),
    damaged := true,
    tasks := s.tasks[t := s.tasks[t].(pc := Nesting(NestedBody), bodyStarted := true)])
  }

  lemma ReachNestedBody(cs: set<Condition>, s0: Sys, s: Sys, t: nat, operation: Operation, id: nat)
    requires Reachable(cs, s0, s)
    requires t < |s.tasks| && s.tasks[t].pc == Nesting(Entering(operation, id))
    ensures Reachable(cs, s0, InBody(s, t, operation, id))
  {
    var job := Some(Job(id, operation, Running, true));
    ReachNamed(cs, s0, s, t, operation, id);
    var l := Named(View(s, t), operation, id);
    var l1 := NestStep(l, RecordingStart(Replace(job)), Fine);
    GoNested(cs, s0, s, t, l, RecordingStart(Replace(job)), Fine, l1);
    var l2 := NestStep(l1, RecordingStart(Sync(job)), Fine);
    GoNested(cs, s0, s, t, l1, RecordingStart(Sync(job)), Fine, l2);
    assert Put(s, t, l2) == InBody(s, t, operation, id);
  }

  /** A nested operation whose start record could not be written. */
  function StartFault(s: Sys, t: nat, operation: Operation, id: nat): Sys
    requires t < |s.tasks|
  {
    s.(mem := SetState(s.mem, StateOf(operation)).(job := Some(Job(id, operation, Running, true))), nested := None,
    tasks := s.tasks[t := s.tasks[t].(pc := Done(false))])
  }

  lemma ReachStartFault(cs: set<Condition>, s0: Sys, s: Sys, t: nat, operation: Operation, id: nat)
    requires Reachable(cs, s0, s)
    requires t < |s.tasks| && s.tasks[t].pc == Nesting(Entering(operation, id))
    ensures Reachable(cs, s0, StartFault(s, t, operation, id))
  {
    var job := Some(Job(id, operation, Running, true));
    ReachNamed(cs, s0, s, t, operation, id);
    var l := Named(View(s, t), operation, id);
    var l1 := NestStep(l, RecordingStart(Replace(job)), Fails(true));
    GoNested(cs, s0, s, t, l, RecordingStart(Replace(job)), Fails(true), l1);
    var l2 := NestStep(l1, RecordingStart(Fault(true)), Fine);
    GoNested(cs, s0, s, t, l1, RecordingStart(Fault(true)), Fine, l2);
    assert Put(s, t, l2).(nested := None) == StartFault(s, t, operation, id);
  }

  /** The end of a nested operation whose body returned (`ok`) or raised. */
  function NestedOver(s: Sys, t: nat, ok: bool): Sys
    requires t < |s.tasks| && s.mem.job.Some?
  {
    var status := if ok then Succeeded else Failed;
    var job := Some(s.mem.job.value.(status := status, requiresRecovery := !ok));
    s.(mem := s.mem.(job := job),
    disk := Disk(Encode(job), {Encode(job)}),
    damaged := (!ok && s.damaged) || Rides(s), raised := !ok, nested := None,
    tasks := s.tasks[t := s.tasks[t].(pc := Done(ok), finished := Some(status), saved := Some(status))])
  }

  function EndSaved(l: Local, ok: bool): Local
    requires l.mem.job.Some?
  {
    l.(disk := Disk(Encode(l.mem.job), {Encode(l.mem.job)}),
    task := l.task.(pc := Done(ok), saved := Some(l.mem.job.value.status)))
  }

  lemma ReachEndSaved(cs: set<Condition>, s0: Sys, s: Sys, t: nat, l: Local, ok: bool)
    requires t < |s.tasks| && Reachable(cs, s0, Put(s, t, l))
    requires l.task.pc == Nesting(RecordingNested(Snapshot, ok)) && l.mem.job.Some?
    ensures Reachable(cs, s0, Put(s, t, EndSaved(l, ok)).(nested := None))
  {
    var l1 := NestStep(l, RecordingNested(Snapshot, ok), Fine);
    GoNested(cs, s0, s, t, l, RecordingNested(Snapshot, ok), Fine, l1);
    var l2 := NestStep(l1, RecordingNested(Replace(l.mem.job), ok), Fine);
    GoNested(cs, s0, s, t, l1, RecordingNested(Replace(l.mem.job), ok), Fine, l2);
    GoNested(cs, s0, s, t, l2, RecordingNested(Sync(l.mem.job), ok), Fine, EndSaved(l, ok));
  }

  /** The body of a nested operation is over. */
  function BodyOver(s: Sys, t: nat, ok: bool): Local
    requires t < |s.tasks|
  {
    View(s, t).(damaged := (!ok && s.damaged) || Rides(s), raised := !ok,
    task := s.tasks[t].(pc := Nesting(FinishingNested(ok))))
  }

  lemma ReachBodyOver(cs: set<Condition>, s0: Sys, s: Sys, t: nat, ok: bool)
    requires Reachable(cs, s0, s)
    requires t < |s.tasks| && s.tasks[t].pc == Nesting(NestedBody) && (EndsOrdered in cs || !Rides(s))
    ensures Reachable(cs, s0, Put(s, t, BodyOver(s, t, ok)))
  {
    var outcome := if ok then Fine else Fails(true);
    Step(cs, s0, s, Advance(t, outcome), Put(s, t, BodyOver(s, t, ok)));
  }

  lemma ReachNestedEnd(cs: set<Condition>, s0: Sys, s: Sys, t: nat, ok: bool)
    requires Reachable(cs, s0, s)
    requires t < |s.tasks| && s.tasks[t].pc == Nesting(NestedBody) && s.mem.job.Some? && (EndsOrdered in cs || !Rides(s))
    ensures Reachable(cs, s0, NestedOver(s, t, ok))
  {
    ReachBodyOver(cs, s0, s, t, ok);
    var l := BodyOver(s, t, ok);
    var l1 := NestStep(l, FinishingNested(ok), Fine);
    GoNested(cs, s0, s, t, l, FinishingNested(ok), Fine, l1);
    ReachEndSaved(cs, s0, s, t, l1, ok);
    assert Put(s, t, EndSaved(l1, ok)).(nested := None) == NestedOver(s, t, ok);
  }

  /** `prepare` returns, the probe reports ready, initialization ends. */
  lemma ReachReopened(cs: set<Condition>, s0: Sys, s: Sys)
    requires Reachable(cs, s0, s) && s.mem.state != Stopping
    requires |s.tasks| > 0 && |s.leases| > 0 && s.tasks[0].pc == Starting(Some(0), Preparing)
    requires NestsWell in cs || (NoFrames(s) && OnlyRoot(s, Some(0)))
    requires FailuresPropagate in cs || !s.raised
    ensures Reachable(cs, s0, Reopened(s, 0, 0))
    ensures AdmitLease(Reopened(s, 0, 0), None).Some? && Reopened(s, 0, 0).damaged == s.damaged
  {
    PreparedSteps(s, 0, Some(0));
    Step(cs, s0, s, Advance(0, Fine), At(s, 0, Starting(Some(0), Inspecting)));
    ReachInspected(cs, s0, s);
    ReopenedAdmits(s, 0, Some(0));
  }

  lemma ReachInspected(cs: set<Condition>, s0: Sys, s: Sys)
    requires |s.tasks| > 0 && |s.leases| > 0 && Reachable(cs, s0, At(s, 0, Starting(Some(0), Inspecting)))
    requires NestsWell in cs || OnlyRoot(s, Some(0))
    ensures Reachable(cs, s0, Reopened(s, 0, 0))
  {
    var s1 := RootClosed(cs, s0, s);
    PreparedCloses(Reported(s, 0), 0, Some(0));
    Go(cs, s0, s1, 0, Fine, Reopened(s, 0, 0));
  }

  /** Initialization closes its root. */
  lemma CloseInit(cs: set<Condition>, s0: Sys, s: Sys, t: nat, root: nat, s': Sys)
    requires Reachable(cs, s0, s) && t < |s.tasks| && Move(s, t, Fine) == Some(s')
    requires s.tasks[t].pc.Starting? && s.tasks[t].pc.root == Some(root) && s.tasks[t].pc.init.ClosingInit?
    requires NestsWell in cs || OnlyRoot(s, Some(root))
    ensures Reachable(cs, s0, s')
  {
    Step(cs, s0, s, Advance(t, Fine), s');
  }

  lemma RootClosed(cs: set<Condition>, s0: Sys, s: Sys) returns (s': Sys)
    requires |s.tasks| > 0 && |s.leases| > 0 && Reachable(cs, s0, At(s, 0, Starting(Some(0), Inspecting)))
    requires NestsWell in cs || OnlyRoot(s, Some(0))
    ensures Reachable(cs, s0, s') && s' == At(Close(Reported(s, 0), 0), 0, Starting(None, LeavingInit(Inspected(Ready))))
  {
    ProbedSteps(s, 0, Some(0));
    var s1 := At(Reported(s, 0), 0, Starting(Some(0), ClosingInit(Inspected(Ready))));
    Go(cs, s0, At(s, 0, Starting(Some(0), Inspecting)), 0, Reports(Ready), s1);
    PreparedCloses(Reported(s, 0), 0, Some(0));
    s' := At(Close(Reported(s, 0), 0), 0, Starting(None, LeavingInit(Inspected(Ready))));
    CloseInit(cs, s0, s1, 0, 0, s');
  }

  // ----- An operation called by `prepare`

  /** `prepare` of a fresh instance has called an operation. */
  function Called(): Sys {
    Spawn(FreshAt(Preparing).(nested := Some(1)), NewTask(NestedOperator, Nesting(Entering(Restore, 7))))
  }

  lemma ReachCalled(cs: set<Condition>)
    ensures Reachable(cs, Booted, Called())
  {
    ReachPreparing(cs);
    Step(cs, Booted, FreshAt(Preparing), CallOperation(Some(0), Restore, 7), Called());
  }

  /** Its body runs. */
  function CalledBody(): Sys {
    InBody(Called(), 1, Restore, 7)
  }

  lemma ReachCalledBody(cs: set<Condition>)
    ensures Reachable(cs, Booted, CalledBody())
  {
    ReachCalled(cs);
    ReachNestedBody(cs, Booted, Called(), 1, Restore, 7);
  }

  /** Another call from the same `prepare`. */
  lemma CalledAgain(cs: set<Condition>, s: Sys)
    requires Reachable(cs, Booted, s) && s.leases == [RootLease]
    requires |s.tasks| > 0 && s.tasks[0].pc == Starting(Some(0), Preparing) && s.holder == Some(0)
    requires CallsStacked in cs || Stacked(s, CallOperation(Some(0), Restore, 8))
    requires CallsCovered in cs || Covered(s, CallOperation(Some(0), Restore, 8))
    ensures CallNested(s, 0, Restore, 8).Some? && Reachable(cs, Booted, CallNested(s, 0, Restore, 8).value)
  {
    Step(cs, Booted, s, CallOperation(Some(0), Restore, 8), CallNested(s, 0, Restore, 8).value);
  }

  // ----- The limits

  /** No record a crash may leave demands recovery. */
  predicate NothingDemanded(s: Sys) { forall j :: j in s.disk.maybe ==> !DemandsRecovery(j) }

  /** `prepare` swallows a failed operation: ordinary work is admitted on damaged storage. */
  lemma SwallowedFailure() returns (s: Sys)
    ensures Reachable({FailuresPropagate}, Booted, s) && s.damaged && AdmitLease(s, None).Some?
  {
    var cs := {FailuresPropagate};
    ReachCalledBody(cs);
    ReachNestedEnd(cs, Booted, CalledBody(), 1, false);
    var s1 := NestedOver(CalledBody(), 1, false);
    assert s1.tasks[0] == Starter(Preparing);
    ReachReopened(cs, Booted, s1);
    s := Reopened(s1, 0, 0);
  }

  /**
    Two operations called at once inside `prepare`: the first one's success is recorded over
    the second one's job, so a crash during the second body would go unnoticed.
   */
  lemma ConcurrentNestedOperations() returns (s: Sys)
    ensures Reachable({CallsStacked}, Booted, s)
    ensures |s.tasks| == 3 && s.tasks[2].pc == Nesting(NestedBody) && NothingDemanded(s)
  {
    var cs := {CallsStacked};
    ReachCalled(cs);
    CalledAgain(cs, Called());
    s := BothRun(cs, Booted, CallNested(Called(), 0, Restore, 8).value, 1, 2);
  }

  /** Two nested operations run their bodies at once, and the first one ends. */
  lemma BothRun(cs: set<Condition>, s0: Sys, s: Sys, t: nat, u: nat) returns (s': Sys)
    requires Reachable(cs, s0, s) && t < |s.tasks| && u < |s.tasks| && t != u && !Rides(s)
    requires s.tasks[t].pc.Nesting? && s.tasks[t].pc.nest.Entering? && s.tasks[u].pc.Nesting? && s.tasks[u].pc.nest.Entering?
    ensures Reachable(cs, s0, s') && |s'.tasks| == |s.tasks| && s'.tasks[u].pc == Nesting(NestedBody) && NothingDemanded(s')
  {
    var first, second := s.tasks[t].pc.nest, s.tasks[u].pc.nest;
    ReachNestedBody(cs, s0, s, t, first.operation, first.id);
    var s1 := InBody(s, t, first.operation, first.id);
    ReachNestedBody(cs, s0, s1, u, second.operation, second.id);
    var s2 := InBody(s1, u, second.operation, second.id);
    assert !Rides(s2);
    ReachNestedEnd(cs, s0, s2, t, true);
    s' := NestedOver(s2, t, true);
  }

  /** A lease opened in `prepare` and not closed by it. */
  function Leased(): Sys {
    var s := FreshAt(Preparing);
    Open(s.(mem := s.mem.(active := 1)), Lease(Ordinary, Some(0), true, true))
  }

  lemma ReachLeased(cs: set<Condition>)
    ensures Reachable(cs, Booted, Leased())
  {
    ReachPreparing(cs);
    Event(cs, Booted, FreshAt(Preparing), DoAdmit(Some(0)), Leased());
  }

  /** A lease opened inside an exclusive region outlives its root: the region is not alone until it gives `busy` back. */
  lemma LeaseOutlivesRoot() returns (s: Sys)
    ensures Reachable({NestsWell}, Booted, s)
    ensures |s.tasks| == 1 && s.tasks[0].pc == Starting(None, LeavingInit(Inspected(Ready)))
    ensures |s.leases| == 2 && s.leases[1].active
  {
    var cs := {NestsWell};
    ReachLeased(cs);
    var s1 := At(Leased(), 0, Starting(Some(0), Inspecting));
    PreparedSteps(Leased(), 0, Some(0));
    Step(cs, Booted, Leased(), Advance(0, Fine), s1);
    s := RootClosed(cs, Booted, Leased());
  }

  /**
    Such a lease still passes as exclusive when the region is over: an operation called in its
    context runs at once, beside an ordinary lease.
   */
  lemma SurvivingExclusiveChild() returns (s: Sys)
    ensures Reachable({NestsWell, CallsInside}, Booted, s)
    ensures |s.tasks| == 2 && s.tasks[1].pc.Riding? && |s.leases| == 3 && s.leases[2].active && !s.leases[2].exclusive
  {
    var cs := {NestsWell, CallsInside};
    var survived := ReachSurvived(cs);
    s := CalledLate(cs, survived);
  }

  /** The lease is live when ordinary work is admitted again. */
  lemma ReachSurvived(cs: set<Condition>) returns (s: Sys)
    requires NestsWell in cs
    ensures Reachable(cs, Booted, s) && !s.mem.initializing && |s.tasks| == 1 && s.tasks[0].pc.Done?
    ensures |s.leases| == 3 && s.leases[1] == Lease(Ordinary, Some(0), true, true) && s.leases[2].active && !s.leases[2].exclusive
  {
    ReachLeased(cs);
    ReachReopened(cs, Booted, Leased());
    s := AdmitLease(Reopened(Leased(), 0, 0), None).value;
    Event(cs, Booted, Reopened(Leased(), 0, 0), DoAdmit(None), s);
  }

  lemma CalledLate(cs: set<Condition>, s: Sys) returns (s': Sys)
    requires CallsInside in cs && Reachable(cs, Booted, s) && NoFrames(s) && !s.mem.initializing
    requires |s.leases| > 1 && s.leases[1].active && s.leases[1].exclusive
    ensures Reachable(cs, Booted, s') && CallNested(s, 1, Restore, 7) == Some(s')
  {
    s' := CallNested(s, 1, Restore, 7).value;
    Step(cs, Booted, s, CallOperation(Some(1), Restore, 7), s');
  }

  /** A nested operation runs its body although initialization is over, and an ordinary lease beside it. */
  predicate NotAlone(s: Sys) {
    && s.mem.state == Maintenance && !s.mem.busy
    && |s.tasks| == 2 && s.tasks[1].pc == Nesting(NestedBody)
    && |s.leases| == 2 && s.leases[1].active && !s.leases[1].exclusive
  }

  lemma OutlivesInitialization(cs: set<Condition>) returns (s: Sys)
    requires Reachable(cs, Booted, At(Called(), 0, Starting(Some(0), Inspecting)))
    ensures Reachable(cs, Booted, s) && NotAlone(s)
  {
    var admitted := ReachAdmitted(cs);
    ReachNestedBody(cs, Booted, admitted, 1, Restore, 7);
    s := InBody(admitted, 1, Restore, 7);
  }

  /** The operation that was called has not begun when ordinary work is admitted. */
  lemma ReachAdmitted(cs: set<Condition>) returns (s: Sys)
    requires Reachable(cs, Booted, At(Called(), 0, Starting(Some(0), Inspecting)))
    ensures Reachable(cs, Booted, s) && s.mem.state == Ready && !s.mem.busy
    ensures |s.tasks| == 2 && s.tasks[1].pc == Nesting(Entering(Restore, 7))
    ensures |s.leases| == 2 && s.leases[1].active && !s.leases[1].exclusive
  {
    ReachInspected(cs, Booted, Called());
    s := AdmitLease(Reopened(Called(), 0, 0), None).value;
    Event(cs, Booted, Reopened(Called(), 0, 0), DoAdmit(None), s);
  }

  /** `prepare` returns before an operation it called. */
  lemma OutlivingOperation() returns (s: Sys)
    ensures Reachable({NestsWell}, Booted, s) && NotAlone(s)
  {
    var cs := {NestsWell};
    ReachCalled(cs);
    PreparedSteps(Called(), 0, Some(0));
    Step(cs, Booted, Called(), Advance(0, Fine), At(Called(), 0, Starting(Some(0), Inspecting)));
    s := OutlivesInitialization(cs);
  }

  lemma ReachInspecting(cs: set<Condition>)
    ensures Reachable(cs, Booted, At(FreshAt(Preparing), 0, Starting(Some(0), Inspecting)))
  {
    ReachPreparing(cs);
    PreparedSteps(FreshAt(Preparing), 0, Some(0));
    Step(cs, Booted, FreshAt(Preparing), Advance(0, Fine), At(FreshAt(Preparing), 0, Starting(Some(0), Inspecting)));
  }

  /** The readiness probe calls an operation. */
  lemma ProbeCallsOperation() returns (s: Sys)
    ensures Reachable({CallsInside}, Booted, s) && NotAlone(s)
  {
    var cs := {CallsInside};
    ReachInspecting(cs);
    var s1 := At(FreshAt(Preparing), 0, Starting(Some(0), Inspecting));
    var s2 := At(Called(), 0, Starting(Some(0), Inspecting));
    assert CallNested(s1, 0, Restore, 7).value.tasks == s2.tasks;
    Step(cs, Booted, s1, CallOperation(Some(0), Restore, 7), s2);
    s := OutlivesInitialization(cs);
  }

  /** `prepare` swallows a failed start record and calls again: a body runs and no record tells. */
  lemma UnrecordedBody() returns (s: Sys)
    ensures Reachable({CallsCovered}, Booted, s)
    ensures |s.tasks| == 3 && s.tasks[2].pc.Riding? && s.damaged && NothingDemanded(s)
  {
    var cs := {CallsCovered};
    ReachCalled(cs);
    ReachStartFault(cs, Booted, Called(), 1, Restore, 7);
    var s1 := StartFault(Called(), 1, Restore, 7);
    CalledAgain(cs, s1);
    s := CallNested(s1, 0, Restore, 8).value;
  }

  /** A nested operation whose body returned and whose end record could not be written. */
  function EndFault(s: Sys, t: nat): Sys
    requires t < |s.tasks| && s.mem.job.Some?
  {
    var job := Some(s.mem.job.value.(status := Succeeded, requiresRecovery := false));
    s.(mem := SetState(s.mem.(job := job), Error), damaged := Rides(s), raised := false, nested := None,
    tasks := s.tasks[t := s.tasks[t].(pc := Done(false), finished := Some(Succeeded))])
  }

  lemma ReachEndFault(cs: set<Condition>, s0: Sys, s: Sys, t: nat)
    requires Reachable(cs, s0, s)
    requires t < |s.tasks| && s.tasks[t].pc == Nesting(NestedBody) && s.mem.job.Some? && (EndsOrdered in cs || !Rides(s))
    ensures Reachable(cs, s0, EndFault(s, t))
  {
    ReachBodyOver(cs, s0, s, t, true);
    var l := BodyOver(s, t, true);
    var l1 := NestStep(l, FinishingNested(true), Fine);
    GoNested(cs, s0, s, t, l, FinishingNested(true), Fine, l1);
    ReachEndFaulted(cs, s0, s, t, l1);
    assert Put(s, t, EndFaulted(l1)).(nested := None) == EndFault(s, t);
  }

  function EndFaulted(l: Local): Local {
    l.(mem := SetState(l.mem, Error), task := l.task.(pc := Done(false)))
  }

  lemma ReachEndFaulted(cs: set<Condition>, s0: Sys, s: Sys, t: nat, l: Local)
    requires t < |s.tasks| && Reachable(cs, s0, Put(s, t, l)) && l.task.pc == Nesting(RecordingNested(Snapshot, true))
    ensures Reachable(cs, s0, Put(s, t, EndFaulted(l)).(nested := None))
  {
    var l1 := NestStep(l, RecordingNested(Snapshot, true), Fine);
    GoNested(cs, s0, s, t, l, RecordingNested(Snapshot, true), Fine, l1);
    var l2 := NestStep(l1, RecordingNested(Replace(l.mem.job), true), Fails(true));
    GoNested(cs, s0, s, t, l1, RecordingNested(Replace(l.mem.job), true), Fails(true), l2);
    GoNested(cs, s0, s, t, l2, RecordingNested(Fault(true), true), Fine, EndFaulted(l));
  }

  /**
    An uncovered body need not go unrecorded: an earlier start record is still on disk when its
    operation's end record could not be written either.
   */
  lemma RecordedByAnother() returns (s: Sys)
    ensures Reachable({}, Booted, s) && s.mem.initializing && JobRuns(s.mem) && s.nested.None? && !s.raised
    ensures CallNested(s, 0, Restore, 8).Some? && !s.damaged && forall j :: j in s.disk.maybe ==> Recovers(j)
  {
    ReachCalledBody({});
    ReachEndFault({}, Booted, CalledBody(), 1);
    s := StartFaultsAgain(EndFault(CalledBody(), 1));
  }

  /** The next operation's start record cannot be written. */
  lemma StartFaultsAgain(s: Sys) returns (s': Sys)
    requires Reachable({}, Booted, s) && s.leases == [RootLease] && s.mem.initializing && !JobRuns(s.mem) && s.holder == Some(0)
    requires |s.tasks| == 2 && s.tasks[0].pc == Starting(Some(0), Preparing) && s.tasks[1].pc.Done? && !s.raised && !s.damaged
    ensures Reachable({}, Booted, s') && s'.leases == s.leases && s'.disk == s.disk && s'.raised == s.raised && s'.damaged == s.damaged
    ensures s'.mem.initializing && JobRuns(s'.mem) && s'.nested.None?
  {
    CalledAgain({}, s);
    var s1 := CallNested(s, 0, Restore, 8).value;
    ReachStartFault({}, Booted, s1, 2, Restore, 8);
    s' := StartFault(s1, 2, Restore, 8);
  }

  /** A call that runs along outlives the nested operation it was made in: success is recorded under its body. */
  lemma OutlivingBody() returns (s: Sys)
    ensures Reachable({EndsOrdered}, Booted, s)
    ensures |s.tasks| == 3 && s.tasks[2].pc.Riding? && s.damaged && NothingDemanded(s)
  {
    var ridden := ReachRidden({EndsOrdered});
    ReachNestedEnd({EndsOrdered}, Booted, ridden, 1, true);
    s := NestedOver(ridden, 1, true);
  }

  /** A call made in the body runs along with it. */
  lemma ReachRidden(cs: set<Condition>) returns (s: Sys)
    ensures Reachable(cs, Booted, s)
    ensures |s.tasks| == 3 && s.tasks[1].pc == Nesting(NestedBody) && s.tasks[2].pc.Riding? && s.mem.job.Some?
  {
    ReachCalledBody(cs);
    CalledAgain(cs, CalledBody());
    s := CallNested(CalledBody(), 0, Restore, 8).value;
  }

  // ----- From every state in which such a condition is broken

  /**
    Wherever a nested operation's body returns while another call still runs along with it, the run
    can go on, meeting every condition, until the success is on disk under the body of that call.
   */
  lemma EndedUnderRide(s: Sys, t: nat, u: nat) returns (s': Sys)
    requires Safe(s) && Durable(s) && s.nested == Some(t) && s.tasks[t].pc == Nesting(NestedBody)
    requires u < |s.tasks| && s.tasks[u].pc.Riding?
    ensures Reachable({}, MoveNested(s, t, NestedBody, Fine), s')
    ensures u < |s'.tasks| && s'.tasks[u].pc.Riding? && NothingDemanded(s')
  {
    var l := BodyOver(s, t, true);
    assert MoveNested(s, t, NestedBody, Fine) == Put(s, t, l);
    s' := SuccessRecorded(s, t, l);
  }

  lemma SuccessRecorded(s: Sys, t: nat, l: Local) returns (s': Sys)
    requires t < |s.tasks| && l.task.pc == Nesting(FinishingNested(true)) && l.mem.job.Some?
    ensures Reachable({}, Put(s, t, l), s') && NothingDemanded(s')
    ensures |s'.tasks| == |s.tasks| && forall u :: 0 <= u < |s.tasks| && u != t ==> s'.tasks[u] == s.tasks[u]
  {
    var s0 := Put(s, t, l);
    Here({}, s0);
    var l1 := NestStep(l, FinishingNested(true), Fine);
    GoNested({}, s0, s, t, l, FinishingNested(true), Fine, l1);
    ReachEndSaved({}, s0, s, t, l1, true);
    s' := Put(s, t, EndSaved(l1, true)).(nested := None);
  }

  /**
    Wherever an operation is called beside a nested one whose body has returned, the run can go on
    in the same way until that success is on disk under the body of the second call.
   */
  lemma CalledBesideReturned(s: Sys, t: nat, p: nat, operation: Operation, id: nat) returns (s': Sys)
    requires Safe(s) && Durable(s) && s.nested == Some(t) && s.tasks[t].pc == Nesting(FinishingNested(true))
    requires CallNested(s, p, operation, id).Some?
    ensures Reachable({}, CallNested(s, p, operation, id).value, s')
    ensures |s.tasks| < |s'.tasks| && s'.tasks[|s.tasks|].pc.Riding? && NothingDemanded(s')
  {
    var s1 := CallNested(s, p, operation, id).value;
    PutBack(s1, t);
    s' := SuccessRecorded(s1, t, View(s1, t));
  }

  /**
    Wherever an operation is called beside a nested one that has not begun, both bodies can come to
    run at once, and the first one's success is on disk while the second one still runs.
   */
  lemma CalledBesideUnbegun(s: Sys, t: nat, p: nat, operation: Operation, id: nat) returns (s': Sys)
    requires Safe(s) && Durable(s) && s.nested == Some(t) && s.tasks[t].pc.nest.Entering?
    requires CallNested(s, p, operation, id).Some?
    ensures Reachable({}, CallNested(s, p, operation, id).value, s')
    ensures |s.tasks| < |s'.tasks| && s'.tasks[|s.tasks|].pc == Nesting(NestedBody) && NothingDemanded(s')
  {
    var s1, u := CallNested(s, p, operation, id).value, |s.tasks|;
    assert Frame(s.tasks[t].pc) && !Rides(s);
    Here({}, s1);
    s' := BothRun({}, s1, s1, t, u);
  }

  // ----- A journal that was cancelled while it was loaded

  const WaitingRecord := Record(7, Restore, Waiting, Some(false))

  function FoundTask(init: InitPoint, spared: bool): Task {
    var task := NewTask(Initializer, Starting(Some(0), init));
    if init == Locking || init == Loading then task
    else task.(bodyStarted := init == Preparing, start := Start(Some(WaitingRecord), spared, false, None))
  }

  /** Initialization that finds the record of a job that only waited. */
  function FoundAt(init: InitPoint, spared: bool): Sys {
    var job := if init == Locking || init == Loading then None
               else Some(Job(7, Restore, if spared then Cancelled else Waiting, false));
    Sys(Memory(true, Initializing, 0, true, true, job), [RootLease], [FoundTask(init, spared)],
        Disk(WaitingRecord, {WaitingRecord}), Some(0), None, false, false, 1, 0, false)
  }

  lemma LoadedSteps()
    ensures Move(FoundAt(Locking, false), 0, Fine) == Some(FoundAt(Loading, false))
    ensures Move(FoundAt(Loading, false), 0, Fine) == Some(FoundAt(Normalising, false))
  {
    assert [FoundTask(Locking, false)][0 := FoundTask(Loading, false)] == [FoundTask(Loading, false)];
    assert [FoundTask(Loading, false)][0 := FoundTask(Normalising, false)] == [FoundTask(Normalising, false)];
  }

  lemma CancelledStep()
    ensures CancelJob(FoundAt(Normalising, false), 7) == Some(FoundAt(Normalising, true))
  {
    assert [FoundTask(Normalising, false)][0 := FoundTask(Normalising, true)] == [FoundTask(Normalising, true)];
  }

  lemma SparedSteps()
    ensures Move(FoundAt(Normalising, true), 0, Fine) == Some(FoundAt(Deciding, true))
    ensures Move(FoundAt(Deciding, true), 0, Fine) == Some(FoundAt(Preparing, true))
  {
    assert [FoundTask(Normalising, true)][0 := FoundTask(Deciding, true)] == [FoundTask(Deciding, true)];
    assert [FoundTask(Deciding, true)][0 := FoundTask(Preparing, true)] == [FoundTask(Preparing, true)];
  }

  lemma ReachFound()
    ensures Reachable({}, Boot(WaitingRecord), FoundAt(Locking, false))
  {
    var s0 := Boot(WaitingRecord);
    var s1 := s0.(mem := Memory(true, Initializing, 0, false, false, None), claims := 1);
    Here({}, s0);
    Event({}, s0, s0, DoClaim, s1);
    assert Initialize(s1).value.leases == [RootLease] && Initialize(s1).value.tasks == [FoundTask(Locking, false)];
    Event({}, s0, s1, DoInitialize, FoundAt(Locking, false));
  }

  lemma ReachLoaded()
    ensures Reachable({}, Boot(WaitingRecord), FoundAt(Normalising, false))
  {
    ReachFound();
    LoadedSteps();
    var s0 := Boot(WaitingRecord);
    Go({}, s0, FoundAt(Locking, false), 0, Fine, FoundAt(Loading, false));
    Go({}, s0, FoundAt(Loading, false), 0, Fine, FoundAt(Normalising, false));
  }

  lemma ReachSpared()
    ensures Reachable({}, Boot(WaitingRecord), FoundAt(Normalising, true))
  {
    ReachLoaded();
    CancelledStep();
    Event({}, Boot(WaitingRecord), FoundAt(Normalising, false), DoCancel(7), FoundAt(Normalising, true));
  }

  /** Nothing fails and every condition is met; the journal demands recovery, and the instance is prepared. */
  lemma CancelledWhileLoading()
    ensures Reachable({}, Boot(WaitingRecord), FoundAt(Preparing, true))
    ensures forall j :: j in FoundAt(Preparing, true).disk.maybe ==> DemandsRecovery(j)
  {
    ReachSpared();
    SparedSteps();
    var s0 := Boot(WaitingRecord);
    Go({}, s0, FoundAt(Normalising, true), 0, Fine, FoundAt(Deciding, true));
    Go({}, s0, FoundAt(Deciding, true), 0, Fine, FoundAt(Preparing, true));
  }

  // ----- Stopping

  /** A waiting `stop` takes away a claim granted after another one had released the first. */
  lemma LaterClaim() returns (s: Sys)
    ensures Reachable({}, Booted, s) && Enabled(s, Wake(1))
    ensures |s.tasks| > 1 && s.tasks[1].pc == StopWaiting(1) && s.claims == 2
    ensures s.mem.state == Initializing && Next(s, Wake(1)).value.mem.state == Stopped
  {
    s := ReachLaterClaim();
  }

  /** The second claim is granted while a `stop` of the first still waits. */
  lemma ReachLaterClaim() returns (s: Sys)
    ensures Reachable({}, Booted, s)
    ensures |s.tasks| == 3 && s.tasks[1].pc == StopWaiting(1) && s.claims == 2 && |s.leases| == 1 && !s.leases[0].active
    ensures s.mem == Memory(true, Initializing, 0, false, false, None)
  {
    var s0 := ReachStopping();
    AbortInitialization({}, Booted, s0, 0, 0);
    s := ReleasedAndClaimed(Aborted(s0, 0, 0));
  }

  /** Initialization has begun when the first `stop` comes. */
  lemma ReachStopping() returns (s: Sys)
    ensures Reachable({}, Booted, s) && s.mem == Memory(true, Stopping, 0, true, true, None) && s.claims == 1
    ensures |s.tasks| == 2 && s.tasks[0].pc == Starting(Some(0), Locking) && s.tasks[1].pc == StopWaiting(1)
    ensures |s.leases| == 1
  {
    ReachInitialize({});
    s := Stop(FreshAt(Locking)).value;
    Event({}, Booted, FreshAt(Locking), DoStop, s);
  }

  lemma ReleasedAndClaimed(s: Sys) returns (s': Sys)
    requires Reachable({}, Booted, s) && s.mem == Memory(true, Stopping, 0, false, false, None)
    requires |s.tasks| == 2 && s.tasks[1].pc == StopWaiting(1) && s.claims == 1 && |s.leases| == 1 && !s.leases[0].active
    ensures Reachable({}, Booted, s')
    ensures |s'.tasks| == 3 && s'.tasks[1].pc == StopWaiting(1) && s'.claims == 2 && |s'.leases| == 1 && !s'.leases[0].active
    ensures s'.mem == Memory(true, Initializing, 0, false, false, None)
  {
    var s1 := Stop(s).value;
    Event({}, Booted, s, DoStop, s1);
    s' := ClaimOwner(s1).value;
    Event({}, Booted, s1, DoClaim, s');
  }

  /** A waiter may also find a later claim in stopping, because somebody else asked for it. */
  lemma LaterClaimStopping() returns (s: Sys)
    ensures Reachable({}, Booted, s) && Enabled(s, Wake(1))
    ensures |s.tasks| > 1 && s.tasks[1].pc == StopWaiting(1) && s.claims == 2 && s.mem.owned && s.mem.state == Stopping
  {
    var begun := ReachBegunAgain();
    s := StoppedAgain(begun);
  }

  /** The second claim's initialization has begun. */
  lemma ReachBegunAgain() returns (s: Sys)
    ensures Reachable({}, Booted, s) && s.mem == Memory(true, Initializing, 0, true, true, None) && s.claims == 2
    ensures |s.tasks| == 4 && s.tasks[1].pc == StopWaiting(1) && s.tasks[3].pc == Starting(Some(1), Locking)
    ensures |s.leases| == 2 && !s.leases[0].active
  {
    var claimed := ReachLaterClaim();
    s := Initialize(claimed).value;
    Event({}, Booted, claimed, DoInitialize, s);
  }

  lemma StoppedAgain(s: Sys) returns (s': Sys)
    requires Reachable({}, Booted, s) && s.mem == Memory(true, Initializing, 0, true, true, None) && s.claims == 2
    requires |s.tasks| == 4 && s.tasks[1].pc == StopWaiting(1) && s.tasks[3].pc == Starting(Some(1), Locking)
    requires |s.leases| == 2 && !s.leases[0].active
    ensures Reachable({}, Booted, s') && Idle(s'.mem)
    ensures |s'.tasks| > 1 && s'.tasks[1].pc == StopWaiting(1) && s'.claims == 2 && s'.mem.owned && s'.mem.state == Stopping
  {
    var s1 := Stop(s).value;
    Event({}, Booted, s, DoStop, s1);
    AbortInitialization({}, Booted, s1, 3, 1);
    s' := Aborted(s1, 3, 1);
  }

  function Broke(s: Sys, t: nat): Sys
    requires t < |s.tasks|
  {
    s.(tasks := s.tasks[t := s.tasks[t].(start := s.tasks[t].start.(broke := true))])
  }

  /** Initialization that breaks at once while the runtime is stopping. */
  function Aborted(s: Sys, t: nat, root: nat): Sys
    requires t < |s.tasks| && root < |s.leases|
  {
    MoveLeavingInit(At(Close(Broke(s, t), root), t, Starting(None, LeavingInit(Broken))), t, Broken)
  }

  lemma AbortInitialization(cs: set<Condition>, s0: Sys, s: Sys, t: nat, root: nat)
    requires Reachable(cs, s0, s)
    requires t < |s.tasks| && root < |s.leases| && s.tasks[t].pc == Starting(Some(root), Locking) && s.mem.state == Stopping
    requires OnlyRoot(s, Some(root))
    ensures Reachable(cs, s0, Aborted(s, t, root))
  {
    BreakInitialization(cs, s0, s, t, root);
    var s2 := At(Close(Broke(s, t), root), t, Starting(None, FailingInit));
    FailInitialization(cs, s0, s2, t);
    assert At(s2, t, Starting(None, LeavingInit(Broken))).tasks
        == At(Close(Broke(s, t), root), t, Starting(None, LeavingInit(Broken))).tasks;
  }

  lemma BreakInitialization(cs: set<Condition>, s0: Sys, s: Sys, t: nat, root: nat)
    requires Reachable(cs, s0, s)
    requires t < |s.tasks| && root < |s.leases| && s.tasks[t].pc == Starting(Some(root), Locking) && OnlyRoot(s, Some(root))
    ensures Reachable(cs, s0, At(Close(Broke(s, t), root), t, Starting(None, FailingInit)))
  {
    var s1 := At(Broke(s, t), t, Starting(Some(root), ClosingInit(Broken)));
    var s2 := At(Close(Broke(s, t), root), t, Starting(None, FailingInit));
    assert Put(s, t, InitStep(View(s, t), Some(root), Locking, Fails(true)).value) == s1;
    Go(cs, s0, s, t, Fails(true), s1);
    assert MoveClosingInit(s1, t, Some(root), Broken).value.tasks == s2.tasks;
    CloseInit(cs, s0, s1, t, root, s2);
  }

  lemma FailInitialization(cs: set<Condition>, s0: Sys, s: Sys, t: nat)
    requires Reachable(cs, s0, s)
    requires t < |s.tasks| && s.tasks[t].pc == Starting(None, FailingInit) && s.mem.state == Stopping
    ensures Reachable(cs, s0, MoveLeavingInit(At(s, t, Starting(None, LeavingInit(Broken))), t, Broken))
  {
    var s1 := At(s, t, Starting(None, LeavingInit(Broken)));
    assert Put(s, t, InitStep(View(s, t), None, FailingInit, Fine).value).tasks == s1.tasks;
    Go(cs, s0, s, t, Fine, s1);
    Go(cs, s0, s1, t, Fine, MoveLeavingInit(s1, t, Broken));
  }

  // ----- A false alarm

  /** Steps that touch a lease, leave the operation, or belong to its caller. */
  predicate Special(op: OpPoint, o: Outcome) { op.Closing? || op.Leaving? || op.Body? || StartsRegion(op, o) }

  /** Other steps of one operation. */
  function OpRun(l: Local, outcomes: seq<Outcome>): Option<Local>
    decreases |outcomes|
  {
    if outcomes == [] then Some(l)
    else if !l.task.pc.Operating? || Special(l.task.pc.op, outcomes[0]) then None
    else
      var next := OpStep(l, l.task.pc.root, l.task.pc.op, outcomes[0]);
      if next.None? then None else OpRun(next.value, outcomes[1..])
  }

  lemma OpRunStep(l: Local, root: Option<nat>, op: OpPoint, o: Outcome, rest: seq<Outcome>)
    requires l.task.pc == Operating(root, op) && !Special(op, o)
    ensures OpRun(l, [o] + rest) == if OpStep(l, root, op, o).None? then None else OpRun(OpStep(l, root, op, o).value, rest)
  {
    assert ([o] + rest)[1..] == rest;
  }

  /** They are steps of the whole system. */
  lemma {:induction false} ReachOpRun(cs: set<Condition>, s0: Sys, s: Sys, t: nat, outcomes: seq<Outcome>)
    requires Reachable(cs, s0, s) && t < |s.tasks| && OpRun(View(s, t), outcomes).Some?
    ensures Reachable(cs, s0, Put(s, t, OpRun(View(s, t), outcomes).value))
    decreases |outcomes|
  {
    if outcomes == [] {
      assert Put(s, t, View(s, t)) == s;
    } else {
      var pc := s.tasks[t].pc;
      var l := OpStep(View(s, t), pc.root, pc.op, outcomes[0]).value;
      Go(cs, s0, s, t, outcomes[0], Put(s, t, l));
      assert View(Put(s, t, l), t) == l;
      ReachOpRun(cs, s0, Put(s, t, l), t, outcomes[1..]);
      PutTwice(s, t, l, OpRun(l, outcomes[1..]).value);
    }
  }

  lemma {:induction false} OpRunAppend(l: Local, first: seq<Outcome>, second: seq<Outcome>)
    requires OpRun(l, first).Some?
    ensures OpRun(l, first + second) == OpRun(OpRun(l, first).value, second)
    decreases |first|
  {
    if first == [] {
      assert first + second == second;
    } else {
      assert (first + second)[0] == first[0] && (first + second)[1..] == first[1..] + second;
      OpRunAppend(OpStep(l, l.task.pc.root, l.task.pc.op, first[0]).value, first[1..], second);
    }
  }

  function Staged(op: OpPoint, stage: SaveStage): OpPoint
    requires Recording(op)
  {
    op.(stage := stage)
  }

  /** A record is written without trouble. */
  lemma RecordWritten(l: Local, op: OpPoint)
    requires Recording(op) && op.stage == Snapshot && !op.RecordingRunning? && l.mem.job.Some? && l.task.pc == Operating(None, op)
    ensures OpRun(l, [Fine, Fine, Fine]) == Some(l.(
      disk := Disk(Encode(l.mem.job), {Encode(l.mem.job)}),
      task := l.task.(pc := Operating(None, OpWritten(op)), saved := Some(l.mem.job.value.status))))
  {
    var replacing, syncing := Staged(op, Replace(l.mem.job)), Staged(op, Sync(l.mem.job));
    var l1 := OpAt(l, None, replacing);
    var l2 := OpAt(l.(disk := Disk(Encode(l.mem.job), l.disk.maybe + {Encode(l.mem.job)})), None, syncing);
    assert [Fine, Fine, Fine] == [Fine] + ([Fine] + ([Fine] + []));
    OpRunStep(l, None, op, Fine, [Fine] + ([Fine] + []));
    OpRunStep(l1, None, replacing, Fine, [Fine] + []);
    OpRunStep(l2, None, syncing, Fine, []);
    assert OpRun(OpStep(l2, None, syncing, Fine).value, []) == OpStep(l2, None, syncing, Fine);
  }

  lemma RunningRecordFaults(l: Local, before: RuntimeState)
    requires l.task.pc == Operating(None, RecordingRunning(Snapshot, before))
    ensures OpRun(l, [Fine, Fails(true)]) == Some(OpAt(l, None, RecordingRunning(Fault(true), before)))
  {
    var l1 := OpStep(l, None, RecordingRunning(Snapshot, before), Fine).value;
    var l2 := OpStep(l1, None, RecordingRunning(Replace(l.mem.job), before), Fails(true)).value;
    assert [Fine, Fails(true)] == [Fine] + ([Fails(true)] + []);
    OpRunStep(l, None, RecordingRunning(Snapshot, before), Fine, [Fails(true)] + []);
    OpRunStep(l1, None, RecordingRunning(Replace(l.mem.job), before), Fails(true), []);
    assert OpRun(l2, []) == Some(l2);
  }

  lemma FaultStep(l: Local, before: RuntimeState)
    requires l.task.pc == Operating(None, RecordingRunning(Fault(true), before))
    ensures OpStep(l, None, RecordingRunning(Fault(true), before), Fine) == Some(OpAt(l, None, Aborting(before)))
  {
  }

  lemma AbortSteps(l: Local, before: RuntimeState)
    requires l.task.pc == Operating(None, Aborting(before)) && l.mem.state != Stopping
    ensures OpRun(l, [Fine, Fine])
         == Some(OpFinish(l.(mem := l.mem.(state := before)), Cancelled, RecordingCancelled(Snapshot, before)))
  {
    var l1 := OpAt(l.(mem := l.mem.(state := before)), None, FinishingCancelled(before));
    var l2 := OpFinish(l1, Cancelled, RecordingCancelled(Snapshot, before));
    assert [Fine, Fine] == [Fine] + ([Fine] + []);
    OpRunStep(l, None, Aborting(before), Fine, [Fine] + []);
    OpRunStep(l1, None, FinishingCancelled(before), Fine, []);
    assert OpRun(l2, []) == Some(l2);
  }

  lemma FaultCallsOff(l: Local, before: RuntimeState)
    requires l.task.pc == Operating(None, RecordingRunning(Fault(true), before)) && l.mem.state != Stopping
    ensures OpRun(l, [Fine] + [Fine, Fine])
         == Some(OpFinish(l.(mem := l.mem.(state := before)), Cancelled, RecordingCancelled(Snapshot, before)))
  {
    FaultStep(l, before);
    OpRunStep(l, None, RecordingRunning(Fault(true), before), Fine, [Fine, Fine]);
    AbortSteps(OpAt(l, None, Aborting(before)), before);
  }

  /** The running record cannot be written, and the operation is called off. */
  lemma RunningRecordFails(l: Local, before: RuntimeState)
    requires l.task.pc == Operating(None, RecordingRunning(Snapshot, before)) && l.mem.state != Stopping && l.mem.job.Some?
    ensures OpRun(l, [Fine, Fails(true)] + ([Fine] + [Fine, Fine]))
         == Some(OpFinish(l.(mem := l.mem.(state := before)), Cancelled, RecordingCancelled(Snapshot, before)))
  {
    RunningRecordFaults(l, before);
    FaultCallsOff(OpAt(l, None, RecordingRunning(Fault(true), before)), before);
    OpRunAppend(l, [Fine, Fails(true)], [Fine] + [Fine, Fine]);
  }

  /** An instance that was just opened. */
  function Opened(): Sys {
    Reopened(FreshAt(Preparing), 0, 0)
  }

  lemma ReachOpened(cs: set<Condition>)
    ensures Reachable(cs, Booted, Opened())
    ensures Opened().mem == Memory(true, Ready, 0, false, false, None) && |Opened().tasks| == 1 && !Opened().damaged
  {
    ReachPreparing(cs);
    ReachReopened(cs, Booted, FreshAt(Preparing));
  }

  /** The second call ended before its body; work is admitted on undamaged storage; every record demands recovery. */
  predicate FalselyAlarmed(s: Sys) {
    && |s.tasks| == 2 && s.tasks[1].pc == Done(false) && !s.tasks[1].bodyStarted && !s.damaged
    && AdmitLease(s, None).Some? && (forall j :: j in s.disk.maybe ==> DemandsRecovery(j))
  }

  /**
    An operation whose running record cannot be written ends before its body: the instance is
    ready and undamaged, and every record on disk demands recovery at the next start.
   */
  lemma FalseAlarm() returns (s: Sys)
    ensures Reachable({}, Booted, s) && FalselyAlarmed(s)
  {
    var waiting := ReachWaiting();
    var l := View(waiting, 1);
    RecordWritten(l, RecordingWaiting(Snapshot, Ready));
    ReachOpRun({}, Booted, waiting, 1, [Fine, Fine, Fine]);
    s := AlarmRaised(Put(waiting, 1, OpRun(l, [Fine, Fine, Fine]).value));
  }

  /** An operation has been called on an instance that was just opened. */
  lemma ReachWaiting() returns (s: Sys)
    ensures Reachable({}, Booted, s) && |s.tasks| == 2 && s.tasks[1].pc == Operating(None, RecordingWaiting(Snapshot, Ready))
    ensures s.mem == Memory(true, Maintenance, 0, true, false, Some(Job(7, Restore, Waiting, false)))
    ensures !s.tasks[1].bodyStarted && !s.damaged
  {
    ReachOpened({});
    s := CallDriver(Opened(), Restore, 7).value;
    Event({}, Booted, Opened(), CallOperation(None, Restore, 7), s);
  }

  lemma AlarmRaised(s: Sys) returns (s': Sys)
    requires Reachable({}, Booted, s) && |s.tasks| == 2 && s.tasks[1].pc == Operating(None, Draining(Ready))
    requires s.mem == Memory(true, Maintenance, 0, true, false, Some(Job(7, Restore, Waiting, false)))
    requires !s.tasks[1].bodyStarted && !s.damaged
    ensures Reachable({}, Booted, s') && FalselyAlarmed(s')
  {
    var l := OpStep(View(s, 1), None, Draining(Ready), Fine).value;
    Go({}, Booted, s, 1, Fine, Put(s, 1, l));
    s' := AlarmDrained(Put(s, 1, l));
  }

  lemma AlarmDrained(s: Sys) returns (s': Sys)
    requires Reachable({}, Booted, s) && |s.tasks| == 2 && s.tasks[1].pc == Operating(None, RecordingRunning(Snapshot, Ready))
    requires s.mem == Memory(true, Maintenance, 0, true, false, Some(Job(7, Restore, Running, true)))
    requires !s.tasks[1].bodyStarted && !s.damaged
    ensures Reachable({}, Booted, s') && FalselyAlarmed(s')
  {
    var run := [Fine, Fails(true)] + ([Fine] + [Fine, Fine]);
    RunningRecordFails(View(s, 1), Ready);
    ReachOpRun({}, Booted, s, 1, run);
    s' := AlarmRecorded(Put(s, 1, OpRun(View(s, 1), run).value));
  }

  lemma AlarmRecorded(s: Sys) returns (s': Sys)
    requires Reachable({}, Booted, s) && |s.tasks| == 2
    requires s.tasks[1].pc == Operating(None, RecordingCancelled(Snapshot, Ready)) && !s.tasks[1].bodyStarted && !s.damaged
    requires s.mem == Memory(true, Ready, 0, true, false, Some(Job(7, Restore, Cancelled, true)))
    ensures Reachable({}, Booted, s') && FalselyAlarmed(s')
  {
    var l := View(s, 1);
    RecordWritten(l, RecordingCancelled(Snapshot, Ready));
    ReachOpRun({}, Booted, s, 1, [Fine, Fine, Fine]);
    s' := AlarmLeft(Put(s, 1, OpRun(l, [Fine, Fine, Fine]).value));
  }

  lemma AlarmLeft(s: Sys) returns (s': Sys)
    requires Reachable({}, Booted, s) && |s.tasks| == 2 && !s.damaged
    requires s.tasks[1].pc == Operating(None, Leaving(false)) && !s.tasks[1].bodyStarted
    requires s.mem.state == Ready && forall j :: j in s.disk.maybe ==> j == Record(7, Restore, Cancelled, Some(true))
    ensures Reachable({}, Booted, s') && FalselyAlarmed(s')
  {
    s' := MoveLeaving(s, 1, false);
    Go({}, Booted, s, 1, Fine, s');
  }

  /** `busy` is set and nobody is there to give it back. */
  lemma BusyLeftBehind() returns (s: Sys)
    ensures Reachable({}, Booted, s) && NobodyDrives(s)
  {
    ReachOpened({});
    s := CallWithoutId(Opened(), Restore).value;
    Event({}, Booted, Opened(), CallUnnamed(Restore), s);
  }
}
