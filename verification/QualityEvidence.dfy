/**
  Which Quality run a revision relies on: defer to an older run that is still active, reuse the
  complete evidence of a successful one, or execute.
 */
module QualityEvidence {
  import opened Wrappers

  /** `started` is missing when the record has no readable time. */
  datatype Run = Run(
    id: nat,
    sha: string,
    branch: string,
    event: string,
    status: string,
    conclusion: string,
    started: Option<int>)

  /** Times are in seconds; `run` is missing when the artifact names no run. */
  datatype Artifact = Artifact(
    run: Option<nat>,
    name: string,
    created: Option<int>,
    expires: Option<int>,
    expired: bool,
    size: int,
    sha: string,
    branch: string)

  datatype Query = Query(
    sha: string,
    current: Option<nat>,
    now: int,
    maxAgeHours: int,
    required: set<string>,
    forceFull: bool)

  datatype Decision =
    | Invalid
    | InProgress(run: nat)
    | Forced
    | LatestFailed
    | Reused(run: nat)
    | NothingReusable

  predicate Sound(q: Query) { 0 < q.maxAgeHours <= 24 && q.required != {} }

  predicate Active(status: string) {
    status in ["queued", "in_progress", "waiting", "requested", "pending"]
  }

  /** A scheduled or dispatched run of the revision on master, other than the asking one. */
  predicate Matches(q: Query, r: Run) {
    r.sha == q.sha && r.branch == "master" && r.event in ["schedule", "workflow_dispatch"] && q.current != Some(r.id)
  }

  predicate Blocks(q: Query, r: Run) {
    Matches(q, r) && Active(r.status) && (q.current.Some? ==> r.id < q.current.value)
  }

  predicate Successful(r: Run) { r.status == "completed" && r.conclusion == "success" }

  /** One artifact of the run is current, unexpired, non-empty and made by this attempt for this revision. */
  predicate Fresh(q: Query, r: Run, a: Artifact) {
    && r.started.Some? && a.created.Some? && a.expires.Some?
    && q.now - q.maxAgeHours * 3600 <= a.created.value <= q.now
    && r.started.value <= a.created.value && q.now < a.expires.value
    && !a.expired && a.size > 0 && a.sha == q.sha && a.branch == "master"
  }

  /** The artifacts of a run. */
  function OfRun(artifacts: seq<Artifact>, id: nat): seq<Artifact> {
    if artifacts == [] then []
    else
      var last := artifacts[|artifacts| - 1];
      OfRun(artifacts[..|artifacts| - 1], id) + (if last.run == Some(id) then [last] else [])
  }

  /** Those among them with one of the names. */
  function Named(artifacts: seq<Artifact>, names: set<string>): seq<Artifact> {
    if artifacts == [] then []
    else
      var last := artifacts[|artifacts| - 1];
      Named(artifacts[..|artifacts| - 1], names) + (if last.name in names then [last] else [])
  }

  /** For every required name the run has exactly one artifact, and it is fresh. */
  predicate Complete(q: Query, r: Run, artifacts: seq<Artifact>) {
    forall name :: name in q.required ==>
      var offered := Named(OfRun(artifacts, r.id), {name});
      |offered| == 1 && Fresh(q, r, offered[0])
  }

  // ----- The run's evidence, as the program checks it

  function Evidence(q: Query, r: Run, artifacts: seq<Artifact>): seq<Artifact> {
    Named(OfRun(artifacts, r.id), q.required)
  }

  function Names(artifacts: seq<Artifact>): seq<string> {
    seq(|artifacts|, i requires 0 <= i < |artifacts| => artifacts[i].name)
  }

  /** As many artifacts as names, and every name among them. */
  predicate Matching(q: Query, evidence: seq<Artifact>) {
    (set i | 0 <= i < |evidence| :: evidence[i].name) == q.required && |evidence| == |q.required|
  }

  lemma NamesAppend(artifacts: seq<Artifact>, last: Artifact)
    ensures Names(artifacts + [last]) == Names(artifacts) + [last.name]
  {
  }

  lemma {:induction false} NamedCounts(artifacts: seq<Artifact>, names: set<string>, name: string)
    requires name in names
    ensures multiset(Names(Named(artifacts, names)))[name] == |Named(artifacts, {name})|
  {
    if artifacts != [] {
      var n := |artifacts| - 1;
      var before := Named(artifacts[..n], names);
      NamedCounts(artifacts[..n], names, name);
      if artifacts[n].name in names {
        NamesAppend(before, artifacts[n]);
        assert multiset(Names(before) + [artifacts[n].name]) == multiset(Names(before)) + multiset{artifacts[n].name};
      } else {
        assert Named(artifacts, names) == before;
      }
    }
  }

  lemma {:induction false} NamedHolds(artifacts: seq<Artifact>, names: set<string>, e: Artifact)
    ensures e in Named(artifacts, names) <==> e in artifacts && e.name in names
  {
    if artifacts != [] {
      var n := |artifacts| - 1;
      NamedHolds(artifacts[..n], names, e);
      assert artifacts == artifacts[..n] + [artifacts[n]];
    }
  }

  /** The program's test of a run's evidence is the completeness it stands for. */
  lemma CompletenessTest(q: Query, r: Run, artifacts: seq<Artifact>)
    ensures
      var evidence := Evidence(q, r, artifacts);
      Complete(q, r, artifacts) <==> Matching(q, evidence) && forall i :: 0 <= i < |evidence| ==> Fresh(q, r, evidence[i])
  {
    var own, evidence := OfRun(artifacts, r.id), Evidence(q, r, artifacts);
    MatchingCounts(q, own);
    if Complete(q, r, artifacts) {
      forall i | 0 <= i < |evidence|
        ensures Fresh(q, r, evidence[i])
      {
        NamedHolds(own, q.required, evidence[i]);
        NamedHolds(own, {evidence[i].name}, evidence[i]);
        var offered := Named(own, {evidence[i].name});
        assert |offered| == 1 && evidence[i] in offered;
      }
    }
    if Matching(q, evidence) && forall i :: 0 <= i < |evidence| ==> Fresh(q, r, evidence[i]) {
      forall name | name in q.required
        ensures |Named(own, {name})| == 1 && Fresh(q, r, Named(own, {name})[0])
      {
        var e := Named(own, {name})[0];
        NamedHolds(own, {name}, e);
        NamedHolds(own, q.required, e);
      }
    }
  }

  lemma MultisetEqual(a: multiset<string>, b: multiset<string>)
    requires a <= b && |a| == |b|
    ensures a == b
  {
    assert b == a + (b - a);
  }

  /** Counting the evidence is the same as finding each name once. */
  lemma MatchingCounts(q: Query, artifacts: seq<Artifact>)
    ensures Matching(q, Named(artifacts, q.required)) <==>
            forall name :: name in q.required ==> |Named(artifacts, {name})| == 1
  {
    var evidence := Named(artifacts, q.required);
    var names := multiset(Names(evidence));
    forall name | name in q.required
      ensures names[name] == |Named(artifacts, {name})|
    {
      NamedCounts(artifacts, q.required, name);
    }
    NamesRequired(artifacts, q.required);
    assert |names| == |evidence| && |multiset(q.required)| == |q.required|;
    if Matching(q, evidence) {
      MatchingNames(q, evidence);
      MultisetEqual(multiset(q.required), names);
    }
    if forall name :: name in q.required ==> |Named(artifacts, {name})| == 1 {
      assert names == multiset(q.required);
      forall name | name in q.required
        ensures exists i :: 0 <= i < |evidence| && evidence[i].name == name
      {
        assert name in Names(evidence);
        var i :| 0 <= i < |Names(evidence)| && Names(evidence)[i] == name;
        assert evidence[i].name == name;
      }
    }
  }

  lemma {:induction false} NamesRequired(artifacts: seq<Artifact>, names: set<string>)
    ensures forall i :: 0 <= i < |Named(artifacts, names)| ==> Named(artifacts, names)[i].name in names
  {
    if artifacts != [] {
      NamesRequired(artifacts[..|artifacts| - 1], names);
    }
  }

  lemma MatchingNames(q: Query, evidence: seq<Artifact>)
    requires Matching(q, evidence)
    ensures multiset(q.required) <= multiset(Names(evidence))
  {
    forall name | name in q.required
      ensures multiset(Names(evidence))[name] >= 1
    {
      var i :| 0 <= i < |evidence| && evidence[i].name == name;
      assert Names(evidence)[i] == name;
    }
  }

  // ----- The decision

  function Matched(q: Query, runs: seq<Run>): seq<Run> {
    if runs == [] then []
    else
      var last := runs[|runs| - 1];
      Matched(q, runs[..|runs| - 1]) + (if Matches(q, last) then [last] else [])
  }

  predicate Reusable(q: Query, r: Run, artifacts: seq<Artifact>) { Successful(r) && Complete(q, r, artifacts) }

  predicate Blocked(q: Query, runs: seq<Run>) { exists i :: 0 <= i < |runs| && Blocks(q, runs[i]) }

  predicate Dated(runs: seq<Run>) { forall i :: 0 <= i < |runs| ==> runs[i].started.Some? }

  /** The first of the runs that started last. */
  predicate Latest(runs: seq<Run>, i: nat)
    requires Dated(runs)
  {
    && i < |runs|
    && (forall j :: 0 <= j < |runs| ==> runs[j].started.value <= runs[i].started.value)
    && (forall j :: 0 <= j < i ==> runs[j].started.value < runs[i].started.value)
  }

  /** A publication gate asks for a successful latest attempt; a Quality run does not. */
  predicate GateOpen(q: Query, matched: seq<Run>) {
    q.current.Some? || matched == [] || (Dated(matched) && exists i :: 0 <= i < |matched| && Latest(matched, i) && Successful(matched[i]))
  }

  /** What the decision means. */
  predicate Right(q: Query, runs: seq<Run>, artifacts: seq<Artifact>, d: Decision) {
    var matched := Matched(q, runs);
    match d
    case Invalid => !Sound(q)
    case InProgress(id) =>
      && Sound(q) && (exists i :: 0 <= i < |runs| && Blocks(q, runs[i]) && runs[i].id == id)
      && (forall i :: 0 <= i < |runs| && Blocks(q, runs[i]) ==> runs[i].id <= id)
    case Forced => Sound(q) && !Blocked(q, runs) && q.forceFull
    case LatestFailed => Sound(q) && !Blocked(q, runs) && !q.forceFull && !GateOpen(q, matched)
    case Reused(id) =>
      && Sound(q) && !Blocked(q, runs) && !q.forceFull && GateOpen(q, matched)
      && (exists i :: 0 <= i < |matched| && Reusable(q, matched[i], artifacts) && matched[i].id == id)
      && (forall i :: 0 <= i < |matched| && Reusable(q, matched[i], artifacts) ==> matched[i].id <= id)
    case NothingReusable =>
      && Sound(q) && !Blocked(q, runs) && !q.forceFull && GateOpen(q, matched)
      && (forall i :: 0 <= i < |matched| ==> !Reusable(q, matched[i], artifacts))
  }

  /** The runs leave no choice. */
  lemma OneRightDecision(q: Query, runs: seq<Run>, artifacts: seq<Artifact>, d: Decision, e: Decision)
    requires Right(q, runs, artifacts, d) && Right(q, runs, artifacts, e)
    ensures d == e
  {
  }

  // ----- The program

  method MatchingRuns(q: Query, runs: seq<Run>) returns (matched: seq<Run>)
    ensures matched == Matched(q, runs)
  {
    matched := [];
    for i := 0 to |runs|
      invariant matched == Matched(q, runs[..i])
    {
      assert runs[..i + 1][..i] == runs[..i];
      if Matches(q, runs[i]) {
        matched := matched + [runs[i]];
      }
    }
    assert runs[..|runs|] == runs;
  }

  /** The highest active run the asking one waits for. */
  method HighestBlocking(q: Query, runs: seq<Run>) returns (found: Option<nat>)
    ensures found.None? ==> !Blocked(q, runs)
    ensures found.Some? ==> exists i :: 0 <= i < |runs| && Blocks(q, runs[i]) && runs[i].id == found.value
    ensures found.Some? ==> forall i :: 0 <= i < |runs| && Blocks(q, runs[i]) ==> runs[i].id <= found.value
  {
    found := None;
    for i := 0 to |runs|
      invariant found.None? ==> forall j :: 0 <= j < i ==> !Blocks(q, runs[j])
      invariant found.Some? ==> exists j :: 0 <= j < i && Blocks(q, runs[j]) && runs[j].id == found.value
      invariant found.Some? ==> forall j :: 0 <= j < i && Blocks(q, runs[j]) ==> runs[j].id <= found.value
    {
      if Blocks(q, runs[i]) && (found.None? || runs[i].id > found.value) {
        found := Some(runs[i].id);
      }
    }
  }

  method LatestRun(runs: seq<Run>) returns (latest: Option<nat>)
    requires runs != []
    ensures latest.None? <==> !Dated(runs)
    ensures latest.Some? ==> Latest(runs, latest.value)
  {
    var best := 0;
    if runs[0].started.None? {
      return None;
    }
    for i := 1 to |runs|
      invariant Dated(runs[..i]) && Latest(runs[..i], best)
    {
      if runs[i].started.None? {
        return None;
      }
      if runs[i].started.value > runs[best].started.value {
        best := i;
      }
    }
    assert runs[..|runs|] == runs;
    return Some(best);
  }

  function OwnOf(groups: map<nat, seq<Artifact>>, id: nat): seq<Artifact> {
    if id in groups then groups[id] else []
  }

  ghost predicate Grouped(groups: map<nat, seq<Artifact>>, artifacts: seq<Artifact>) {
    forall id: nat :: OwnOf(groups, id) == OfRun(artifacts, id)
  }

  function AddTo(groups: map<nat, seq<Artifact>>, artifact: Artifact): map<nat, seq<Artifact>> {
    if artifact.run.None? then groups
    else groups[artifact.run.value := OwnOf(groups, artifact.run.value) + [artifact]]
  }

  lemma GroupedMore(groups: map<nat, seq<Artifact>>, artifacts: seq<Artifact>, artifact: Artifact)
    requires Grouped(groups, artifacts)
    ensures Grouped(AddTo(groups, artifact), artifacts + [artifact])
  {
    forall id: nat
      ensures OwnOf(AddTo(groups, artifact), id) == OfRun(artifacts + [artifact], id)
    {
      assert (artifacts + [artifact])[..|artifacts|] == artifacts;
      assert OwnOf(groups, id) == OfRun(artifacts, id);
    }
  }

  method Group(artifacts: seq<Artifact>) returns (groups: map<nat, seq<Artifact>>)
    ensures Grouped(groups, artifacts)
  {
    groups := map[];
    for i := 0 to |artifacts|
      invariant Grouped(groups, artifacts[..i])
    {
      GroupedMore(groups, artifacts[..i], artifacts[i]);
      assert artifacts[..i] + [artifacts[i]] == artifacts[..i + 1];
      groups := AddTo(groups, artifacts[i]);
    }
    assert artifacts[..|artifacts|] == artifacts;
  }

  method WithNames(artifacts: seq<Artifact>, names: set<string>) returns (r: seq<Artifact>)
    ensures r == Named(artifacts, names)
  {
    r := [];
    for i := 0 to |artifacts|
      invariant r == Named(artifacts[..i], names)
    {
      assert artifacts[..i + 1][..i] == artifacts[..i];
      if artifacts[i].name in names {
        r := r + [artifacts[i]];
      }
    }
    assert artifacts[..|artifacts|] == artifacts;
  }

  datatype Dates = Dates(oldest: int, newest: int, soonest: int)

  predicate Timed(evidence: seq<Artifact>) {
    forall i :: 0 <= i < |evidence| ==> evidence[i].created.Some? && evidence[i].expires.Some?
  }

  /** The extremes lie among the dates. */
  ghost predicate Bounds(evidence: seq<Artifact>, d: Dates)
    requires Timed(evidence)
  {
    && (forall i :: 0 <= i < |evidence| ==>
          d.oldest <= evidence[i].created.value <= d.newest && d.soonest <= evidence[i].expires.value)
    && (exists i :: 0 <= i < |evidence| && evidence[i].created.value == d.oldest)
    && (exists i :: 0 <= i < |evidence| && evidence[i].created.value == d.newest)
    && (exists i :: 0 <= i < |evidence| && evidence[i].expires.value == d.soonest)
  }

  method DateRange(evidence: seq<Artifact>) returns (dates: Option<Dates>)
    requires evidence != []
    ensures dates.None? <==> !Timed(evidence)
    ensures dates.Some? ==> Bounds(evidence, dates.value)
  {
    if evidence[0].created.None? || evidence[0].expires.None? {
      return None;
    }
    var d := Dates(evidence[0].created.value, evidence[0].created.value, evidence[0].expires.value);
    for i := 1 to |evidence|
      invariant Timed(evidence[..i]) && Bounds(evidence[..i], d)
    {
      if evidence[i].created.None? || evidence[i].expires.None? {
        return None;
      }
      ghost var before := d;
      d := Widened(d, evidence[i].created.value, evidence[i].expires.value);
      BoundsWiden(evidence, i, before);
    }
    assert evidence[..|evidence|] == evidence;
    return Some(d);
  }

  function Widened(d: Dates, created: int, expires: int): Dates {
    Dates(if created < d.oldest then created else d.oldest,
          if created > d.newest then created else d.newest,
          if expires < d.soonest then expires else d.soonest)
  }

  lemma BoundsWiden(evidence: seq<Artifact>, i: nat, d: Dates)
    requires i < |evidence| && Timed(evidence[..i + 1]) && Timed(evidence[..i]) && Bounds(evidence[..i], d)
    ensures Bounds(evidence[..i + 1], Widened(d, evidence[i].created.value, evidence[i].expires.value))
  {
    var longer := evidence[..i + 1];
    assert longer[i] == evidence[i] && forall j :: 0 <= j < i ==> longer[j] == evidence[..i][j];
  }

  /** The tests on the extremes are the tests on every artifact. */
  method CheckEvidence(q: Query, r: Run, evidence: seq<Artifact>) returns (ok: bool)
    requires Sound(q)
    ensures ok <==> Matching(q, evidence) && forall i :: 0 <= i < |evidence| ==> Fresh(q, r, evidence[i])
  {
    if !Matching(q, evidence) {
      return false;
    }
    MatchingNotEmpty(q, evidence);
    var dates := DateRange(evidence);
    if r.started.None? || dates.None? {
      assert !Fresh(q, r, evidence[0]) || !Timed(evidence);
      return false;
    }
    var d := dates.value;
    if !(0 <= q.now - d.oldest <= q.maxAgeHours * 3600) || d.newest > q.now {
      return false;
    }
    if d.oldest < r.started.value || d.soonest <= q.now {
      return false;
    }
    ok := forall i :: 0 <= i < |evidence| ==>
      !evidence[i].expired && evidence[i].size > 0 && evidence[i].sha == q.sha && evidence[i].branch == "master";
  }

  lemma MatchingNotEmpty(q: Query, evidence: seq<Artifact>)
    requires Sound(q) && Matching(q, evidence)
    ensures evidence != []
  {
    var name :| name in q.required;
  }

  // ----- Candidates, highest id first

  function InsertRun(r: Run, sorted: seq<Run>): seq<Run> {
    if sorted == [] || sorted[0].id < r.id then [r] + sorted
    else [sorted[0]] + InsertRun(r, sorted[1..])
  }

  predicate Descending(runs: seq<Run>) { forall i, j :: 0 <= i < j < |runs| ==> runs[j].id <= runs[i].id }

  lemma {:induction false} InsertSorted(r: Run, sorted: seq<Run>)
    requires Descending(sorted)
    ensures Descending(InsertRun(r, sorted))
    ensures forall x :: x in InsertRun(r, sorted) <==> x == r || x in sorted
  {
    if sorted != [] && sorted[0].id >= r.id {
      InsertSorted(r, sorted[1..]);
      assert sorted == [sorted[0]] + sorted[1..];
      assert forall x :: x in InsertRun(r, sorted[1..]) ==> x.id <= sorted[0].id;
      DescendingCons(sorted[0], InsertRun(r, sorted[1..]));
    }
  }

  lemma DescendingCons(r: Run, rest: seq<Run>)
    requires Descending(rest) && forall x :: x in rest ==> x.id <= r.id
    ensures Descending([r] + rest)
  {
  }

  method SuccessfulDescending(runs: seq<Run>) returns (sorted: seq<Run>)
    ensures Descending(sorted) && forall r :: r in sorted <==> r in runs && Successful(r)
  {
    sorted := [];
    for i := 0 to |runs|
      invariant Descending(sorted) && forall r :: r in sorted <==> r in runs[..i] && Successful(r)
    {
      assert runs[..i + 1] == runs[..i] + [runs[i]];
      if Successful(runs[i]) {
        InsertSorted(runs[i], sorted);
        sorted := InsertRun(runs[i], sorted);
      }
    }
    assert runs[..|runs|] == runs;
  }

  method CheckRun(q: Query, run: Run, ghost artifacts: seq<Artifact>, own: seq<Artifact>) returns (ok: bool)
    requires Sound(q) && own == OfRun(artifacts, run.id)
    ensures ok <==> Complete(q, run, artifacts)
  {
    var evidence := WithNames(own, q.required);
    ok := CheckEvidence(q, run, evidence);
    CompletenessTest(q, run, artifacts);
  }

  /** The scan of the candidates stops at the highest reusable run. */
  method HighestReusable(q: Query, matched: seq<Run>, artifacts: seq<Artifact>) returns (found: Option<nat>)
    requires Sound(q)
    ensures found.None? ==> forall i :: 0 <= i < |matched| ==> !Reusable(q, matched[i], artifacts)
    ensures found.Some? ==> exists i :: 0 <= i < |matched| && Reusable(q, matched[i], artifacts) && matched[i].id == found.value
    ensures found.Some? ==> forall i :: 0 <= i < |matched| && Reusable(q, matched[i], artifacts) ==> matched[i].id <= found.value
  {
    var groups := Group(artifacts);
    var candidates := SuccessfulDescending(matched);
    var k := FirstComplete(q, candidates, artifacts, groups);
    if k < |candidates| {
      HighestOf(q, matched, artifacts, candidates, k);
      return Some(candidates[k].id);
    }
    NoneReusable(q, matched, artifacts, candidates);
    return None;
  }

  /** The first candidate from `i` on whose evidence is complete, or their number. */
  function FirstFrom(q: Query, candidates: seq<Run>, artifacts: seq<Artifact>, i: nat): (k: nat)
    requires i <= |candidates|
    ensures i <= k <= |candidates| && (k < |candidates| ==> Complete(q, candidates[k], artifacts))
    ensures forall j :: i <= j < k ==> !Complete(q, candidates[j], artifacts)
    decreases |candidates| - i
  {
    if i == |candidates| || Complete(q, candidates[i], artifacts) then i else FirstFrom(q, candidates, artifacts, i + 1)
  }

  method FirstComplete(q: Query, candidates: seq<Run>, ghost artifacts: seq<Artifact>, groups: map<nat, seq<Artifact>>) returns (k: nat)
    requires Sound(q) && Grouped(groups, artifacts)
    ensures k == FirstFrom(q, candidates, artifacts, 0)
  {
    for i := 0 to |candidates|
      invariant FirstFrom(q, candidates, artifacts, i) == FirstFrom(q, candidates, artifacts, 0)
    {
      var run := candidates[i];
      assert OwnOf(groups, run.id) == OfRun(artifacts, run.id);
      var ok := CheckRun(q, run, artifacts, OwnOf(groups, run.id));
      if ok {
        return i;
      }
    }
    return |candidates|;
  }

  lemma NoneReusable(q: Query, matched: seq<Run>, artifacts: seq<Artifact>, candidates: seq<Run>)
    requires forall r :: r in candidates <==> r in matched && Successful(r)
    requires forall i :: 0 <= i < |candidates| ==> !Complete(q, candidates[i], artifacts)
    ensures forall i :: 0 <= i < |matched| ==> !Reusable(q, matched[i], artifacts)
  {
    forall i | 0 <= i < |matched| && Successful(matched[i])
      ensures !Reusable(q, matched[i], artifacts)
    {
      assert matched[i] in candidates;
    }
  }

  lemma HighestOf(q: Query, matched: seq<Run>, artifacts: seq<Artifact>, candidates: seq<Run>, k: nat)
    requires Descending(candidates) && k < |candidates| && Complete(q, candidates[k], artifacts)
    requires forall r :: r in candidates <==> r in matched && Successful(r)
    requires forall i :: 0 <= i < k ==> !Complete(q, candidates[i], artifacts)
    ensures exists i :: 0 <= i < |matched| && Reusable(q, matched[i], artifacts) && matched[i].id == candidates[k].id
    ensures forall i :: 0 <= i < |matched| && Reusable(q, matched[i], artifacts) ==> matched[i].id <= candidates[k].id
  {
    assert candidates[k] in matched;
    forall i | 0 <= i < |matched| && Reusable(q, matched[i], artifacts)
      ensures matched[i].id <= candidates[k].id
    {
      assert matched[i] in candidates;
      var j :| 0 <= j < |candidates| && candidates[j] == matched[i];
    }
  }

  /** `select_evidence`. */
  method SelectEvidence(q: Query, runs: seq<Run>, artifacts: seq<Artifact>) returns (d: Decision)
    ensures Right(q, runs, artifacts, d)
  {
    if !Sound(q) {
      return Invalid;
    }
    var blocking := HighestBlocking(q, runs);
    if blocking.Some? {
      return InProgress(blocking.value);
    }
    if q.forceFull {
      return Forced;
    }
    var matched := MatchingRuns(q, runs);
    if q.current.None? && matched != [] {
      var latest := LatestRun(matched);
      if latest.None? || !Successful(matched[latest.value]) {
        if latest.Some? {
          LatestIsUnique(matched, latest.value);
        }
        return LatestFailed;
      }
      assert Latest(matched, latest.value) && Successful(matched[latest.value]);
    }
    var reusable := HighestReusable(q, matched, artifacts);
    return if reusable.Some? then Reused(reusable.value) else NothingReusable;
  }

  lemma LatestIsUnique(runs: seq<Run>, i: nat)
    requires Dated(runs) && Latest(runs, i)
    ensures forall j :: 0 <= j < |runs| && Latest(runs, j) ==> j == i
  {
    forall j | 0 <= j < |runs| && Latest(runs, j)
      ensures j == i
    {
      assert runs[j].started.value == runs[i].started.value;
    }
  }

  // ----- Deferral

  /** A Quality run waits only for an older one. */
  lemma DefersToOlder(q: Query, runs: seq<Run>, artifacts: seq<Artifact>, d: Decision)
    requires Right(q, runs, artifacts, d) && q.current.Some? && d.InProgress?
    ensures d.run < q.current.value
  {
    var i :| 0 <= i < |runs| && Blocks(q, runs[i]) && runs[i].id == d.run;
  }

  /** The oldest active run of a revision never waits. */
  lemma OldestNeverDefers(q: Query, runs: seq<Run>, artifacts: seq<Artifact>, d: Decision)
    requires Right(q, runs, artifacts, d) && q.current.Some?
    requires forall i :: 0 <= i < |runs| && Matches(q, runs[i]) && Active(runs[i].status) ==> q.current.value <= runs[i].id
    ensures !d.InProgress?
  {
  }

  datatype Observation = Observation(q: Query, runs: seq<Run>, artifacts: seq<Artifact>)

  /** Each run in turn, whatever it sees when it asks, waits for the next. */
  ghost predicate Chain(ids: seq<nat>, seen: seq<Observation>) {
    && |ids| == |seen| + 1
    && (forall i :: 0 <= i < |seen| ==>
          seen[i].q.current == Some(ids[i]) && Right(seen[i].q, seen[i].runs, seen[i].artifacts, InProgress(ids[i + 1])))
  }

  /** Waiting ends: a chain of deferrals is no longer than its first run's id. */
  lemma {:induction false} DeferralsEnd(ids: seq<nat>, seen: seq<Observation>)
    requires Chain(ids, seen)
    ensures |seen| <= ids[0]
    decreases |seen|
  {
    if seen != [] {
      DefersToOlder(seen[0].q, seen[0].runs, seen[0].artifacts, InProgress(ids[1]));
      DeferralsEnd(ids[1..], seen[1..]);
    }
  }
}
