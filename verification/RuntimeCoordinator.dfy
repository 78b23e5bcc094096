/**
  The coordinator object. Each method is one section that runs while the condition is held, and
  `Meanwhile` is any step of a call in flight between its sections. The object carries the system
  it is the memory of: every method takes that system through one of its actions, so what holds
  of every run without a crash holds of every sequence of calls on the object.
 */
module RuntimeCoordinator {
  import opened Wrappers
  import opened RuntimeTypes
  import opened RuntimeProtocol
  import opened RuntimeInvariant
  import opened RuntimeSafety
  import opened RuntimeHistory
  import opened RuntimeTheorems

  // ----- What a caller may conclude from the invariants

  predicate NoLease(leases: seq<Lease>) { forall l :: 0 <= l < |leases| ==> !leases[l].active }

  /** No exclusive work is under way, neither an operation nor initialization nor a call inside one. */
  predicate NoExclusiveWork(s: Sys) {
    forall t :: 0 <= t < |s.tasks| ==> !Driver(s.tasks[t].pc) && !Frame(s.tasks[t].pc)
  }

  predicate DrivesAlone(s: Sys, t: nat) {
    t < |s.tasks| && Driver(s.tasks[t].pc) && forall u :: 0 <= u < |s.tasks| && Driver(s.tasks[u].pc) ==> u == t
  }

  lemma IdleMeansNoExclusiveWork(s: Sys)
    requires Safe(s) && !s.mem.busy
    ensures NoExclusiveWork(s)
  {
  }

  lemma UnownedMeansNothing(s: Sys)
    requires Safe(s) && Idle(s.mem)
    ensures NoLease(s.leases) && NoExclusiveWork(s)
  {
    LiveCountZero(s.leases);
  }

  lemma SealedWithoutRoot(s: Sys, t: nat)
    requires Safe(s) && s.holder == Some(t) && Sealed(s.tasks[t].pc) && s.tasks[t].pc.root.None?
    ensures NoLease(s.leases)
  {
    assert AllUnder(s.leases, None);
  }

  /** A system without a holder has no driver left after one left it. */
  lemma LeftAlone(s: Sys)
    requires Safe(s) && s.holder.None?
    ensures NoExclusiveWork(s)
  {
  }

  class Coordinator {
    var owned: bool
    var state: RuntimeState
    var active: int
    var busy: bool
    var initializing: bool
    var job: Option<Job>
    var leases: seq<Lease>
    ghost var sys: Sys

    function Value(): Memory
      reads this
    {
      Memory(owned, state, active, busy, initializing, job)
    }

    /** The object is the memory of a system in which the coordinator's guarantees hold. */
    ghost predicate Valid()
      reads this
    {
      sys.mem == Value() && sys.leases == leases && Safe(sys) && Histories(sys)
    }

    /** One action of the system, taken by the object. */
    ghost predicate Took(before: Sys, a: Action)
      reads this
    {
      Next(before, a) == Some(sys)
    }

    constructor (ghost journal: Journal)
      ensures Valid() && sys == Boot(journal) && !owned && state == Stopped
    {
      owned, state, active, busy, initializing, job := false, Stopped, 0, false, false, None;
      leases := [];
      sys := Boot(journal);
      new;
      BootInvariant(journal);
    }

    /**
      A step between the sections, with what it leaves in the fields: a journal write, the loading
      of the journal, a callback, a driver's root lease, a nested call, a wait that times out.
     */
    method Meanwhile(ghost a: Action, ghost next: Sys, m: Memory, ls: seq<Lease>)
      requires Valid() && Nested(sys, a) && (a.Advance? || a.CallOperation? || a.StopTimeout?)
      requires Next(sys, a) == Some(next) && next.mem == m && next.leases == ls
      modifies this
      ensures Valid() && Took(old(sys), a) && Value() == m && leases == ls
    {
      StepBoth(sys, a, next);
      owned, state, active, busy, initializing, job := m.owned, m.state, m.active, m.busy, m.initializing, m.job;
      leases := ls;
      sys := next;
    }

    /** `claim`: `lockFree` tells whether the owner lock file could be locked. A claim starts from nothing. */
    method Claim(lockFree: bool) returns (granted: bool)
      requires Valid()
      modifies this
      ensures Valid() && (granted <==> lockFree && !old(owned))
      ensures if granted then Took(old(sys), DoClaim) && owned && NoLease(leases) && NoExclusiveWork(sys) else sys == old(sys)
    {
      if owned || !lockFree {
        return false;
      }
      UnownedMeansNothing(sys);
      ClaimSafe(sys);
      LeaseHistory(sys, DoClaim);
      owned := true;
      state := Initializing;
      busy := false;
      sys := ClaimOwner(sys).value;
      return true;
    }

    /** `initialize` begins: from then on it drives alone, and whatever is live is its own. */
    method BeginInitialize() returns (root: Option<nat>)
      requires Valid()
      modifies this
      ensures Valid() && (root.Some? <==> old(state) == Initializing && !old(busy))
      ensures root.None? ==> sys == old(sys)
      ensures root.Some? ==>
                && Took(old(sys), DoInitialize) && DrivesAlone(sys, |old(sys).tasks|)
                && (forall l :: 0 <= l < |leases| && leases[l].active ==> Under(leases, l, root))
    {
      if !owned || busy || state != Initializing {
        return None;
      }
      InitializeSafe(sys);
      CallHistory(sys, DoInitialize);
      root := Some(|leases|);
      busy := true;
      initializing := true;
      leases := leases + [RootLease];
      sys := Initialize(sys).value;
      assert sys.holder == Some(|old(sys).tasks|) && Sealed(HolderPc(sys));
    }

    /** The last section of `initialize`: nothing is left of it, and it reopens only what was inspected. */
    method FinishInitialize(ghost t: nat, inspected: Option<RuntimeState>)
      requires Valid() && t < |sys.tasks| && sys.tasks[t].pc.Starting? && sys.tasks[t].pc.init.LeavingInit?
      requires inspected == (var end := sys.tasks[t].pc.init.end; if end.Inspected? then Some(end.state) else None)
      modifies this
      ensures Valid() && Took(old(sys), Advance(t, Fine)) && NoLease(leases) && NoExclusiveWork(sys)
      ensures AdmitLease(sys, None).Some? <==> inspected == Some(Ready) && old(state) != Stopping
    {
      ghost var next := LeavingInitStep(sys, t);
      if inspected.Some? && state != Stopping {
        state := inspected.value;
      }
      busy := false;
      initializing := false;
      sys := next;
    }

    /**
      `admit` in the context of a lease, if any. Work of a finished context is refused, work of a
      live one always admitted and part of it; any other only while no exclusive work is under way.
     */
    method Admit(parent: Option<nat>) returns (lease: Option<nat>)
      requires Valid() && (parent.Some? ==> parent.value < |leases|)
      modifies this
      ensures Valid()
      ensures lease.Some? <==> if parent.Some? then old(leases)[parent.value].active else old(state) == Ready && !old(busy)
      ensures lease.None? ==> sys == old(sys)
      ensures lease.Some? ==>
                && Took(old(sys), DoAdmit(parent)) && lease.value < |leases| && leases[lease.value].active
                && (parent.None? ==> NoExclusiveWork(sys) && !leases[lease.value].exclusive)
                && (parent.Some? ==> Descends(leases, lease.value, parent.value) && leases[lease.value].exclusive == leases[parent.value].exclusive)
    {
      if parent.Some? && !leases[parent.value].active {
        return None;
      }
      if parent.None? && (state != Ready || busy) {
        return None;
      }
      ghost var next := AdmitStep(sys, parent);
      lease := Some(|leases|);
      leases := leases + [Lease(Ordinary, parent, parent.Some? && leases[parent.value].exclusive, true)];
      active := active + 1;
      sys := next;
    }

    /** `inspect_storage`: granted only while no exclusive work is under way, and counted like any lease. */
    method InspectStorage() returns (lease: Option<nat>)
      requires Valid()
      modifies this
      ensures Valid() && (lease.None? ==> sys == old(sys))
      ensures lease.Some? <==> (old(state) == Ready || old(state) == MigrationRequired) && !old(busy)
      ensures lease.Some? ==>
                && Took(old(sys), DoInspect) && NoExclusiveWork(sys) && lease.value < |leases| && leases[lease.value].active
                && active == LiveCount(leases) == LiveCount(old(leases)) + 1
    {
      if busy || (state != Ready && state != MigrationRequired) {
        return None;
      }
      InspectSafe(sys);
      LeaseHistory(sys, DoInspect);
      LiveCountAppend(leases, Lease(Inspection, None, false, true));
      lease := Some(|leases|);
      leases := leases + [Lease(Inspection, None, false, true)];
      active := active + 1;
      sys := InspectLease(sys).value;
      IdleMeansNoExclusiveWork(sys);
    }

    /** A lease ends, no other changes, and the counter is zero exactly when no counted lease is left. */
    method Leave(l: nat)
      requires Valid() && l < |leases| && leases[l].active && !leases[l].kind.Root?
      modifies this
      ensures Valid() && Took(old(sys), EndLease(l))
      ensures |leases| == |old(leases)| && !leases[l].active && forall k :: 0 <= k < |leases| && k != l ==> leases[k] == old(leases)[k]
      ensures active == 0 <==> forall k :: 0 <= k < |leases| && leases[k].active ==> leases[k].kind.Root?
    {
      CloseLeaseSafe(sys, l);
      LeaseHistory(sys, EndLease(l));
      leases := leases[l := leases[l].(active := false)];
      active := active - 1;
      sys := CloseLease(sys, l).value;
      LiveCountZero(leases);
    }

    /**
      The entry of `operation`: the call drives alone, its job waits and owes recovery if the
      instance was in error or its predecessor's job did. Without a readable `id` it raises, and
      from then on `busy` is set and nobody drives.
     */
    method BeginOperation(operation: Operation, id: Option<nat>) returns (granted: bool)
      requires Valid()
      modifies this
      ensures Valid()
      ensures granted <==> id.Some? && !old(busy) && (old(state) == Ready || old(state) == MigrationRequired || old(state) == Error)
      ensures granted ==>
                && id.Some? && Took(old(sys), CallOperation(None, operation, id.value)) && DrivesAlone(sys, |old(sys).tasks|)
                && JobIs(Value(), Waiting, Waiting) && job.value.id == id.value && job.value.operation == operation
                && state == (if operation == Migration then Migrating else Maintenance)
                && (JobRecovers(job) <==> old(state) == Error || JobRecovers(old(job)))
      ensures !granted ==> sys == old(sys) || (id.None? && Took(old(sys), CallUnnamed(operation)) && NobodyDrives(sys))
    {
      if busy || state == Stopped || state == Stopping || state == Initializing {
        return false;
      }
      if id.None? {
        EnterUnnamed(operation);
        return false;
      }
      Enter(operation, id.value);
      return true;
    }

    method Enter(operation: Operation, id: nat)
      requires Valid() && !busy && state != Stopped && state != Stopping && state != Initializing
      modifies this
      ensures Valid() && Took(old(sys), CallOperation(None, operation, id)) && DrivesAlone(sys, |old(sys).tasks|)
      ensures JobIs(Value(), Waiting, Waiting) && job.value.id == id && job.value.operation == operation
      ensures state == if operation == Migration then Migrating else Maintenance
      ensures JobRecovers(job) <==> old(state) == Error || JobRecovers(old(job))
    {
      ghost var next := DriverStep(sys, operation, id);
      job := Some(Job(id, operation, Waiting, state == Error || (job.Some? && job.value.requiresRecovery)));
      busy := true;
      state := StateOf(operation);
      sys := next;
    }

    /** The same section up to the exception. */
    method EnterUnnamed(operation: Operation)
      requires Valid() && !busy && state != Stopped && state != Stopping && state != Initializing
      modifies this
      ensures Valid() && Took(old(sys), CallUnnamed(operation)) && NobodyDrives(sys)
    {
      WithoutIdStep(sys, operation);
      sys := CallWithoutId(sys, operation).value;
      busy := true;
      state := StateOf(operation);
    }

    /**
      One pass of the drain's loop. It proceeds only when no lease at all is live, and then the
      job owes recovery; a job that was called off never proceeds.
     */
    method DrainPass(ghost t: nat) returns (verdict: DrainVerdict)
      requires Valid() && t < |sys.tasks| && sys.tasks[t].pc.Operating? && sys.tasks[t].pc.op.Draining?
      modifies this
      ensures Valid()
      ensures if verdict.KeepWaiting? then sys == old(sys) else Took(old(sys), Advance(t, Fine))
      ensures verdict.Proceed? ==> NoLease(leases) && JobIs(Value(), Running, Running) && JobRecovers(job)
      ensures old(state) == Stopping || JobIs(old(Value()), Cancelled, Cancelled) ==> verdict.Refuse?
    {
      ghost var next := DrainStep(sys, t);
      if job.value.status == Cancelled || state == Stopping {
        verdict := Refuse;
      } else if active != 0 {
        return KeepWaiting;
      } else {
        job := Some(job.value.(status := Running, requiresRecovery := true));
        verdict := Proceed(Value());
      }
      sys := next;
    }

    /** `cancel`: accepted only for the waiting job with that id, whose body has not started. */
    method Cancel(id: nat) returns (accepted: bool)
      requires Valid()
      modifies this
      ensures Valid() && (accepted <==> old(busy) && old(job).Some? && old(job).value.id == id && JobIs(old(Value()), Waiting, Waiting))
      ensures !accepted ==> sys == old(sys)
      ensures accepted ==> Took(old(sys), DoCancel(id)) && JobIs(Value(), Cancelled, Cancelled) && JobRecovers(job) == JobRecovers(old(job))
      ensures accepted && sys.holder.Some? && HolderPc(sys).Operating? ==>
                sys.tasks[sys.holder.value].cancelAccepted && !sys.tasks[sys.holder.value].bodyStarted
    {
      if !busy || job.None? || job.value.id != id || job.value.status != Waiting {
        return false;
      }
      sys := CancelStep(sys, id);
      job := Some(job.value.(status := Cancelled));
      return true;
    }

    /** `stop` up to its first wait: if ownership is released at once, nothing is live and nobody drives. */
    method BeginStop() returns (released: bool)
      requires Valid()
      modifies this
      ensures Valid() && (old(owned) ==> Took(old(sys), DoStop)) && (!old(owned) ==> sys == old(sys))
      ensures if released then !owned && NoLease(leases) && NoExclusiveWork(sys) else owned && state == Stopping
      ensures !released ==> exists t :: 0 <= t < |sys.tasks| && sys.tasks[t].pc == StopWaiting(sys.claims)
    {
      if !owned {
        UnownedMeansNothing(sys);
        return true;
      }
      ghost var next := StopStep(sys);
      released := active == 0 && !busy;
      owned := !released;
      state := if released then Stopped else Stopping;
      sys := next;
    }

    /** A waiter woken up: it releases whatever claim it finds, and only when nothing is live and nobody drives. */
    method StopPass(ghost t: nat) returns (released: bool)
      requires Valid() && t < |sys.tasks| && sys.tasks[t].pc.StopWaiting?
      modifies this
      ensures Valid() && (if WakeStopper(old(sys), t).Some? then Took(old(sys), Wake(t)) else sys == old(sys))
      ensures released ==> old(owned) && !owned && NoLease(leases) && NoExclusiveWork(sys)
      ensures !released ==> owned == old(owned)
    {
      if active != 0 || busy {
        return false;
      }
      WakeSafe(sys, t);
      WakeHistory(sys, t);
      released := owned;
      if owned {
        owned := false;
        state := Stopped;
      }
      sys := WakeStopper(sys, t).value;
      UnownedMeansNothing(sys);
    }

    /** `snapshot`'s ready flag: exactly then an ordinary request would be admitted. */
    method ReportsReady() returns (ready: bool)
      requires Valid()
      ensures ready <==> AdmitLease(sys, None).Some?
    {
      ready := state == Ready && !busy;
    }

    /**
      The section of `_finish_job` in an operation: as a record the finished job demands nothing
      after success, recovery after failure, and after cancelling exactly what it demanded before.
     */
    method FinishJob(ghost t: nat, status: JobStatus)
      requires Valid() && t < |sys.tasks| && Finishes(sys.tasks[t].pc, status)
      modifies this
      ensures Valid() && Took(old(sys), Advance(t, Fine)) && job.Some?
      ensures status == Succeeded ==> !DemandsRecovery(Encode(job))
      ensures status == Failed ==> DemandsRecovery(Encode(job))
      ensures status == Cancelled ==> (DemandsRecovery(Encode(job)) <==> JobRecovers(old(job)))
    {
      ghost var next := FinishStep(sys, t, status);
      var recovery := status != Succeeded && (status == Failed || status == Interrupted || job.value.requiresRecovery);
      job := Some(job.value.(status := status, requiresRecovery := recovery));
      sys := next;
    }

    /** The last section of `operation`: nobody drives, and after a success nothing is live and ordinary work is admitted. */
    method FinishOperation(ghost t: nat, returned: bool)
      requires Valid() && t < |sys.tasks| && sys.tasks[t].pc.Operating? && sys.tasks[t].pc.op == Leaving(returned)
      modifies this
      ensures Valid() && Took(old(sys), Advance(t, Fine)) && NoExclusiveWork(sys)
      ensures returned ==> NoLease(leases) && (AdmitLease(sys, None).Some? <==> old(state) != Stopping)
    {
      ghost var next := LeavingStep(sys, t, returned);
      if returned && state != Stopping {
        state := Ready;
      }
      busy := false;
      sys := next;
    }
  }

  /** The points at which an operation finishes its job with a status. */
  predicate Finishes(pc: Pc, status: JobStatus) {
    pc.Operating? &&
    match pc.op
    case FinishingSucceeded => status == Succeeded
    case FinishingFailed => status == Failed
    case FinishingCancelled(_) => status == Cancelled
    case _ => false
  }

  lemma StepBoth(s: Sys, a: Action, s': Sys)
    requires Safe(s) && Histories(s) && Nested(s, a) && Next(s, a) == Some(s')
    ensures Safe(s') && Histories(s')
  {
    StepSafe(s, a);
    StepHistory(s, a);
  }

  lemma LeavingStep(s: Sys, t: nat, returned: bool) returns (s': Sys)
    requires Safe(s) && Histories(s) && t < |s.tasks| && s.tasks[t].pc.Operating? && s.tasks[t].pc.op == Leaving(returned)
    ensures Next(s, Advance(t, Fine)) == Some(s') && Safe(s') && Histories(s') && NoExclusiveWork(s')
    ensures s'.leases == s.leases && s'.mem == RuntimeTypes.FinishOperation(s.mem, returned)
    ensures returned ==> NoLease(s.leases)
  {
    s' := MoveLeaving(s, t, returned);
    StepBoth(s, Advance(t, Fine), s');
    LeftAlone(s');
    if returned {
      LastPoint(s, t);
    }
  }

  /** At the last point of its region a driver has no root. */
  lemma LastPoint(s: Sys, t: nat)
    requires Safe(s) && t < |s.tasks| && Sealed(s.tasks[t].pc)
    requires (s.tasks[t].pc.Operating? && s.tasks[t].pc.op.Leaving?) || (s.tasks[t].pc.Starting? && s.tasks[t].pc.init.LeavingInit?)
    ensures NoLease(s.leases)
  {
    assert s.holder == Some(t);
    SealedWithoutRoot(s, t);
  }

  lemma LeavingInitStep(s: Sys, t: nat) returns (s': Sys)
    requires Safe(s) && Histories(s) && t < |s.tasks| && s.tasks[t].pc.Starting? && s.tasks[t].pc.init.LeavingInit?
    ensures Next(s, Advance(t, Fine)) == Some(s') && Safe(s') && Histories(s') && NoExclusiveWork(s')
    ensures s'.leases == s.leases && NoLease(s.leases)
    ensures
      var end := s.tasks[t].pc.init.end;
      s'.mem == RuntimeTypes.FinishInitialize(s.mem, if end.Inspected? then Some(end.state) else None)
  {
    s' := MoveLeavingInit(s, t, s.tasks[t].pc.init.end);
    StepBoth(s, Advance(t, Fine), s');
    LeftAlone(s');
    LastPoint(s, t);
  }

  lemma AdmitStep(s: Sys, parent: Option<nat>) returns (s': Sys)
    requires Safe(s) && Histories(s) && AdmitLease(s, parent).Some?
    ensures AdmitLease(s, parent) == Some(s') && Safe(s') && Histories(s') && (parent.None? ==> NoExclusiveWork(s'))
  {
    AdmitSafe(s, parent);
    LeaseHistory(s, DoAdmit(parent));
    s' := AdmitLease(s, parent).value;
    if parent.None? {
      IdleMeansNoExclusiveWork(s');
    }
  }

  lemma CancelStep(s: Sys, id: nat) returns (s': Sys)
    requires Safe(s) && Histories(s) && CancelJob(s, id).Some?
    ensures CancelJob(s, id) == Some(s') && Safe(s') && Histories(s')
    ensures s'.leases == s.leases && RuntimeTypes.Cancel(s.mem, id) == Some(s'.mem)
    ensures JobIs(s'.mem, Cancelled, Cancelled) && JobRecovers(s'.mem.job) == JobRecovers(s.mem.job)
    ensures s'.holder.Some? && HolderPc(s').Operating? ==>
              s'.tasks[s'.holder.value].cancelAccepted && !s'.tasks[s'.holder.value].bodyStarted
  {
    CancelSafe(s, id);
    CancelHistory(s, id);
    CancelMarks(s, id);
    s' := CancelJob(s, id).value;
  }

  lemma StopStep(s: Sys) returns (s': Sys)
    requires Safe(s) && Histories(s) && s.mem.owned
    ensures Stop(s) == Some(s') && Safe(s') && Histories(s') && s'.leases == s.leases
    ensures s'.mem == if Idle(s.mem) then Release(s.mem.(state := Stopping)) else s.mem.(state := Stopping)
    ensures if Idle(s.mem) then NoLease(s.leases) && NoExclusiveWork(s')
            else exists t :: 0 <= t < |s'.tasks| && s'.tasks[t].pc == StopWaiting(s'.claims)
  {
    s' := Stop(s).value;
    StepBoth(s, DoStop, s');
    if Idle(s.mem) {
      UnownedMeansNothing(s');
    } else {
      assert s'.tasks[|s.tasks|].pc == StopWaiting(s'.claims);
    }
  }

  lemma DrainStep(s: Sys, t: nat) returns (s': Sys)
    requires Safe(s) && Histories(s) && t < |s.tasks| && s.tasks[t].pc.Operating? && s.tasks[t].pc.op.Draining?
    ensures s.mem.job.Some? && (CalledOff(s.mem) || s.mem.active == 0 ==> Next(s, Advance(t, Fine)) == Some(s') && Safe(s') && Histories(s'))
    ensures s'.leases == s.leases && s'.mem == if Drain(s.mem).Proceed? then Drain(s.mem).memory else s.mem
    ensures s.mem.active == 0 ==> NoLease(s.leases)
  {
    DrainPoint(s, t);
    s' := s;
    if CalledOff(s.mem) || s.mem.active == 0 {
      s' := Next(s, Advance(t, Fine)).value;
      StepBoth(s, Advance(t, Fine), s');
    }
  }

  lemma DrainPoint(s: Sys, t: nat)
    requires Safe(s) && t < |s.tasks| && s.tasks[t].pc.Operating? && s.tasks[t].pc.op.Draining?
    ensures s.mem.job.Some? && (s.mem.active == 0 ==> NoLease(s.leases))
    ensures CalledOff(s.mem) || s.mem.active == 0 ==> Enabled(s, Advance(t, Fine))
  {
    assert s.holder == Some(t);
    if s.mem.active == 0 {
      UnsealedHasNoRoot(s, t);
    }
  }

  lemma FinishStep(s: Sys, t: nat, status: JobStatus) returns (s': Sys)
    requires Safe(s) && Histories(s) && t < |s.tasks| && Finishes(s.tasks[t].pc, status)
    ensures Next(s, Advance(t, Fine)) == Some(s') && Safe(s') && Histories(s')
    ensures s'.mem == RuntimeTypes.FinishJob(s.mem, status) && s'.leases == s.leases && s.mem.job.Some?
  {
    FinishPoint(s, t, status);
    s' := Next(s, Advance(t, Fine)).value;
    StepBoth(s, Advance(t, Fine), s');
  }

  lemma FinishPoint(s: Sys, t: nat, status: JobStatus)
    requires Safe(s) && t < |s.tasks| && Finishes(s.tasks[t].pc, status)
    ensures s.mem.job.Some? && Enabled(s, Advance(t, Fine))
    ensures
      var s' := Next(s, Advance(t, Fine)).value;
      s'.mem == RuntimeTypes.FinishJob(s.mem, status) && s'.leases == s.leases
  {
    assert s.holder == Some(t);
  }

  lemma WithoutIdStep(s: Sys, operation: Operation)
    requires Safe(s) && Histories(s) && CallWithoutId(s, operation).Some?
    ensures
      var s' := CallWithoutId(s, operation).value;
      Safe(s') && Histories(s') && NobodyDrives(s')
  {
    CallWithoutIdSafe(s, operation);
    LeaseHistory(s, CallUnnamed(operation));
    LeftAlone(CallWithoutId(s, operation).value);
  }

  lemma DriverStep(s: Sys, operation: Operation, id: nat) returns (s': Sys)
    requires Safe(s) && Histories(s) && BeginOperation(s.mem, operation, id).Some?
    ensures Next(s, CallOperation(None, operation, id)) == Some(s') && Safe(s') && Histories(s') && DrivesAlone(s', |s.tasks|)
    ensures s'.leases == s.leases && BeginOperation(s.mem, operation, id) == Some(s'.mem)
  {
    CallDriverSafe(s, operation, id);
    CallDriverHistory(s, operation, id);
    s' := CallDriver(s, operation, id).value;
    assert s'.holder == Some(|s.tasks|);
  }

  lemma UnsealedHasNoRoot(s: Sys, t: nat)
    requires Safe(s) && s.holder == Some(t) && RootOf(s.tasks[t].pc).None? && LiveCount(s.leases) == 0
    ensures NoLease(s.leases)
  {
    LiveCountZero(s.leases);
  }

  lemma CancelMarks(s: Sys, id: nat)
    requires Safe(s) && Histories(s) && CancelJob(s, id).Some? && Safe(CancelJob(s, id).value) && Histories(CancelJob(s, id).value)
    ensures
      var s' := CancelJob(s, id).value;
      s'.holder.Some? && HolderPc(s').Operating? ==>
        s'.tasks[s'.holder.value].cancelAccepted && !s'.tasks[s'.holder.value].bodyStarted
  {
    var s' := CancelJob(s, id).value;
    if s.holder.Some? {
      assert TaskHistory(s.tasks[s.holder.value], s.mem) && TaskHistory(s'.tasks[s.holder.value], s'.mem);
    }
  }
}
