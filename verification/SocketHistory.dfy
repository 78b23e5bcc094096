/**
  The admin socket's job history: an ordered table of job records, bounded by forgetting
  the oldest record whose job no longer runs.
 */
module SocketHistory {
  import opened Wrappers

  datatype Status = Running | Succeeded | Failed | Rejected | Unknown

  datatype Delivery = Pending | Sent | Lost

  datatype Phase = Authorization | Handshake | Validation | Execution | Lifecycle | Transfer | Download | Upload

  /** The command's class; `Unnamed` covers every command outside the tables. */
  datatype Command = Unnamed | Control | JobStatus | Produce | Consume

  datatype Job = Job(command: Command, phase: Phase, status: Status, delivery: Delivery)

  const NewJob := Job(Unnamed, Authorization, Running, Pending)

  datatype Entry = Entry(id: nat, job: Job)

  predicate Distinct(h: seq<Entry>) {
    forall i, j :: 0 <= i < j < |h| ==> h[i].id != h[j].id
  }

  /** Where the job's record is, or the length of the table. */
  function Position(h: seq<Entry>, id: nat): (p: nat)
    ensures p <= |h| && (p < |h| ==> h[p].id == id) && forall i :: 0 <= i < p ==> h[i].id != id
  {
    if h == [] || h[0].id == id then 0 else 1 + Position(h[1..], id)
  }

  /** Where the first record of a finished job is, or the length of the table. */
  function Terminal(h: seq<Entry>): (p: nat)
    ensures p <= |h| && (p < |h| ==> h[p].job.status != Running) && forall i :: 0 <= i < p ==> h[i].job.status == Running
  {
    if h == [] || h[0].job.status != Running then 0 else 1 + Terminal(h[1..])
  }

  /** An update keeps the record's place, a new record goes to the end. */
  function Put(h: seq<Entry>, id: nat, job: Job): seq<Entry> {
    var p := Position(h, id);
    if p < |h| then h[p := Entry(id, job)] else h + [Entry(id, job)]
  }

  function Drop(h: seq<Entry>, p: nat): seq<Entry>
    requires p < |h|
  {
    h[..p] + h[p + 1..]
  }

  /** The eviction loop; `None` is the exception raised when every record is of a running job. */
  function Trim(h: seq<Entry>, size: nat): Option<seq<Entry>>
    decreases |h|
  {
    if |h| <= size then Some(h)
    else if Terminal(h) == |h| then None
    else Trim(Drop(h, Terminal(h)), size)
  }

  /** `_record`. */
  function Recorded(h: seq<Entry>, id: nat, job: Job, size: nat): Option<seq<Entry>> {
    Trim(Put(h, id, job), size)
  }

  /** What a status query finds. */
  function Lookup(h: seq<Entry>, id: nat): Option<Job> {
    var p := Position(h, id);
    if p < |h| then Some(h[p].job) else None
  }

  // ----- Effects on what a query finds

  lemma LookupAt(h: seq<Entry>, i: nat)
    requires Distinct(h) && i < |h|
    ensures Position(h, h[i].id) == i && Lookup(h, h[i].id) == Some(h[i].job)
  {
    var p := Position(h, h[i].id);
  }

  lemma LookupAbsent(h: seq<Entry>, id: nat)
    requires forall i :: 0 <= i < |h| ==> h[i].id != id
    ensures Lookup(h, id) == None
  {
    var p := Position(h, id);
  }

  lemma PutFinds(h: seq<Entry>, id: nat, job: Job, k: nat)
    requires Distinct(h)
    ensures Distinct(Put(h, id, job))
    ensures Lookup(Put(h, id, job), k) == if k == id then Some(job) else Lookup(h, k)
  {
    var h', q := Put(h, id, job), Position(h, k);
    var p := Position(h, id);
    if k == id {
      LookupAt(h', p);
    } else if q < |h| {
      LookupAt(h', q);
    } else {
      LookupAbsent(h', k);
    }
  }

  lemma DropFinds(h: seq<Entry>, p: nat, k: nat)
    requires Distinct(h) && p < |h|
    ensures Distinct(Drop(h, p))
    ensures Lookup(Drop(h, p), k) == if k == h[p].id then None else Lookup(h, k)
  {
    var h', q := Drop(h, p), Position(h, k);
    if k == h[p].id {
      LookupAbsent(h', k);
    } else if q < |h| {
      LookupAt(h', if q < p then q else q - 1);
    } else {
      LookupAbsent(h', k);
    }
  }

  // ----- Eviction cannot fail

  /** The ids of the first `n` records. */
  function Ids(h: seq<Entry>, n: nat): set<nat>
    requires n <= |h|
  {
    set i | 0 <= i < n :: h[i].id
  }

  lemma {:induction false} IdsCount(h: seq<Entry>, n: nat)
    requires Distinct(h) && n <= |h|
    ensures |Ids(h, n)| == n
  {
    if n > 0 {
      IdsCount(h, n - 1);
      assert Ids(h, n) == Ids(h, n - 1) + {h[n - 1].id};
    } else {
      assert Ids(h, 0) == {};
    }
  }

  lemma SubsetCount(a: set<nat>, b: set<nat>)
    requires a <= b
    ensures |a| <= |b|
  {
    assert b == a + (b - a);
  }

  /** Every record of a running job belongs to one of the workers holding a slot. */
  ghost predicate RunningHeld(h: seq<Entry>, live: set<nat>) {
    forall i :: 0 <= i < |h| && h[i].job.status == Running ==> h[i].id in live
  }

  /** A full table has a finished job to forget when a worker outside it wants in. */
  lemma FinishedExists(h: seq<Entry>, id: nat, live: set<nat>, size: nat)
    requires Distinct(h) && |h| == size && RunningHeld(h, live)
    requires id in live && Position(h, id) == |h| && |live| <= size
    ensures Terminal(h) < |h|
  {
    if Terminal(h) == |h| {
      IdsCount(h, |h|);
      assert id !in Ids(h, |h|);
      SubsetCount(Ids(h, |h|) + {id}, live);
      assert false;
    }
  }

  lemma {:induction false} TerminalAppend(h: seq<Entry>, e: Entry)
    requires Terminal(h) < |h|
    ensures Terminal(h + [e]) == Terminal(h)
  {
    if h[0].job.status == Running {
      assert (h + [e])[1..] == h[1..] + [e];
      TerminalAppend(h[1..], e);
    }
  }

  predicate Forgettable(found: Option<Job>) { found.Some? && found.value.status != Running }

  /**
    Recording never fails while running jobs are bounded by slots and slots by the table: the
    job's own record is there afterwards, the table keeps its bound, other records are
    untouched, and only records of finished jobs may be missing.
   */
  lemma RecordWorks(h: seq<Entry>, id: nat, job: Job, size: nat, live: set<nat>, k: nat)
    requires Distinct(h) && |h| <= size && RunningHeld(h, live) && id in live && |live| <= size
    ensures Recorded(h, id, job, size).Some?
    ensures
      var r := Recorded(h, id, job, size).value;
      && Distinct(r) && |r| <= size && Lookup(r, id) == Some(job)
      && (k != id ==> Lookup(r, k) == Lookup(h, k) || (Lookup(r, k) == None && Forgettable(Lookup(h, k))))
  {
    PutFinds(h, id, job, id);
    PutFinds(h, id, job, k);
    var h' := Put(h, id, job);
    if |h'| > size {
      FinishedExists(h, id, live, size);
      TerminalAppend(h, Entry(id, job));
      var p := Terminal(h');
      DropFinds(h', p, id);
      DropFinds(h', p, k);
      LookupAt(h, p);
      assert Recorded(h, id, job, size) == Trim(Drop(h', p), size) == Some(Drop(h', p));
    }
  }

  /** Recording fails exactly when the job is new and running and the table is full of running jobs. */
  lemma RecordFails(h: seq<Entry>, id: nat, job: Job, size: nat)
    requires |h| <= size
    ensures Recorded(h, id, job, size).None? <==>
            |h| == size && Position(h, id) == |h| && job.status == Running && Terminal(h) == |h|
  {
    var h' := Put(h, id, job);
    if |h'| > size {
      assert h' == h + [Entry(id, job)] && h'[|h|].job == job;
      assert forall i :: 0 <= i < |h| ==> h'[i] == h[i];
      if Terminal(h) < |h| {
        TerminalAppend(h, Entry(id, job));
      } else {
        assert Terminal(h') < |h'| <==> job.status != Running;
      }
      if Terminal(h') < |h'| {
        assert Trim(Drop(h', Terminal(h')), size).Some?;
      }
    }
  }

  /** The table object. */
  class JobHistory {
    const size: nat
    var entries: seq<Entry>

    constructor (size: nat)
      ensures this.size == size && entries == []
    {
      this.size := size;
      entries := [];
    }

    /** `_record`: false is the exception of a search that found nothing. */
    method Record(id: nat, job: Job) returns (ok: bool)
      modifies this
      ensures ok <==> Recorded(old(entries), id, job, size).Some?
      ensures ok ==> entries == Recorded(old(entries), id, job, size).value
    {
      Assign(id, job);
      while |entries| > size
        invariant Trim(entries, size) == Recorded(old(entries), id, job, size)
        decreases |entries|
      {
        var terminal := FirstTerminal();
        if terminal == |entries| {
          return false;
        }
        entries := entries[..terminal] + entries[terminal + 1..];
      }
      return true;
    }

    method Assign(id: nat, job: Job)
      modifies this
      ensures entries == Put(old(entries), id, job)
    {
      var p := 0;
      while p < |entries| && entries[p].id != id
        invariant p <= |entries| && Position(entries, id) >= p
      {
        p := p + 1;
      }
      entries := if p < |entries| then entries[p := Entry(id, job)] else entries + [Entry(id, job)];
    }

    /** The generator expression: the first record whose job does not run. */
    method FirstTerminal() returns (p: nat)
      ensures p == Terminal(entries)
    {
      p := 0;
      while p < |entries| && entries[p].job.status == Running
        invariant p <= |entries| && Terminal(entries) >= p
      {
        p := p + 1;
      }
    }
  }
}
