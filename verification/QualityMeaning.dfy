/**
  The evidence decision in the terms of the records themselves: for every decision the exact
  condition on the runs and artifacts as they were listed.
 */
module QualityMeaning {
  import opened Wrappers
  import opened QualityEvidence

  // ----- Runs

  /** A Quality run of the revision on master that is not the asking run itself. */
  predicate Quality(q: Query, r: Run) {
    r.sha == q.sha && r.branch == "master" && (r.event == "schedule" || r.event == "workflow_dispatch")
    && (q.current.None? || q.current.value != r.id)
  }

  predicate Listed(q: Query, runs: seq<Run>, i: nat) { i < |runs| && Quality(q, runs[i]) }

  /** Still to be done, and older than the asking run if a run is asking. */
  predicate Ahead(q: Query, runs: seq<Run>, i: nat) {
    && Listed(q, runs, i)
    && (|| runs[i].status == "queued" || runs[i].status == "in_progress" || runs[i].status == "waiting"
        || runs[i].status == "requested" || runs[i].status == "pending")
    && (q.current.None? || runs[i].id < q.current.value)
  }

  predicate Succeeded(r: Run) { r.status == "completed" && r.conclusion == "success" }

  // ----- Evidence

  /** The artifact is of that run and has that name. */
  predicate Offers(artifacts: seq<Artifact>, k: nat, id: nat, name: string) {
    k < |artifacts| && artifacts[k].run == Some(id) && artifacts[k].name == name
  }

  /** Made by this attempt for this revision within the last hours asked for, and neither empty nor expired. */
  predicate Good(q: Query, r: Run, a: Artifact) {
    && r.started.Some? && a.created.Some? && a.expires.Some?
    && r.started.value <= a.created.value <= q.now <= a.created.value + 3600 * q.maxAgeHours
    && a.expires.value > q.now && a.expired == false && a.size >= 1
    && a.sha == q.sha && a.branch == "master"
  }

  /** The run offers the name at this place and nowhere else, and what it offers is good. */
  predicate Once(q: Query, r: Run, artifacts: seq<Artifact>, name: string, k: nat) {
    && Offers(artifacts, k, r.id, name) && Good(q, r, artifacts[k])
    && forall j :: 0 <= j < |artifacts| && Offers(artifacts, j, r.id, name) ==> j == k
  }

  /** Every required name is offered by the run once and not twice, and what is offered is good. */
  predicate Proves(q: Query, r: Run, artifacts: seq<Artifact>) {
    forall name :: name in q.required ==> exists k :: 0 <= k < |artifacts| && Once(q, r, artifacts, name, k)
  }

  predicate Usable(q: Query, runs: seq<Run>, artifacts: seq<Artifact>, i: nat) {
    Listed(q, runs, i) && Succeeded(runs[i]) && Proves(q, runs[i], artifacts)
  }

  /** Whoever asks as a publication gate needs a success in the attempt that started last. */
  predicate Open(q: Query, runs: seq<Run>) {
    || q.current.Some?
    || (forall i :: 0 <= i < |runs| ==> !Listed(q, runs, i))
    || ((forall i :: 0 <= i < |runs| && Listed(q, runs, i) ==> runs[i].started.Some?)
        && exists i :: 0 <= i < |runs| && LastStarted(q, runs, i) && Succeeded(runs[i]))
  }

  /** No Quality run started later, and none before it in the list at the same time. */
  predicate LastStarted(q: Query, runs: seq<Run>, i: nat) {
    && Listed(q, runs, i) && runs[i].started.Some?
    && forall j :: 0 <= j < |runs| && Listed(q, runs, j) && runs[j].started.Some? ==>
         runs[j].started.value < runs[i].started.value || (runs[j].started.value == runs[i].started.value && i <= j)
  }

  // ----- The program's terms mean the same

  lemma MatchesMeans(q: Query, r: Run)
    ensures Matches(q, r) <==> Quality(q, r)
    ensures Successful(r) <==> Succeeded(r)
  {
  }

  lemma BlocksMeans(q: Query, runs: seq<Run>, i: nat)
    requires i < |runs|
    ensures Blocks(q, runs[i]) <==> Ahead(q, runs, i)
  {
  }

  lemma FreshMeans(q: Query, r: Run, a: Artifact)
    ensures Fresh(q, r, a) <==> Good(q, r, a)
  {
  }

  predicate Increasing(places: seq<nat>) { forall i, j :: 0 <= i < j < |places| ==> places[i] < places[j] }

  lemma FirstTwo(places: seq<nat>)
    requires Increasing(places)
    ensures |places| <= 1 || places[0] != places[1]
  {
  }

  lemma OrderedPlaces(places: seq<nat>, i: nat, j: nat)
    requires Increasing(places) && i < |places| && j < |places|
    ensures places[i] < places[j] <==> i < j
  {
  }

  /** Where the artifacts of a run with a name are. */
  function Places(artifacts: seq<Artifact>, id: nat, name: string): seq<nat> {
    if artifacts == [] then []
    else
      var n := |artifacts| - 1;
      Places(artifacts[..n], id, name) + (if artifacts[n].run == Some(id) && artifacts[n].name == name then [n] else [])
  }

  lemma IncreasingAppend(places: seq<nat>, n: nat)
    requires Increasing(places) && forall p :: p in places ==> p < n
    ensures Increasing(places + [n])
  {
    assert forall i :: 0 <= i < |places| ==> places[i] in places;
  }

  lemma {:induction false} PlacesOffer(artifacts: seq<Artifact>, id: nat, name: string)
    ensures Increasing(Places(artifacts, id, name))
    ensures forall p: nat :: p in Places(artifacts, id, name) <==> Offers(artifacts, p, id, name)
  {
    if artifacts != [] {
      var n := |artifacts| - 1;
      PlacesOffer(artifacts[..n], id, name);
      IncreasingAppend(Places(artifacts[..n], id, name), n);
      forall p: nat
        ensures p in Places(artifacts, id, name) <==> Offers(artifacts, p, id, name)
      {
        assert p in Places(artifacts[..n], id, name) <==> Offers(artifacts[..n], p, id, name);
      }
    }
  }

  /** Picking the run's artifacts and then the name picks what is at those places. */
  lemma {:induction false} NamedPlaces(artifacts: seq<Artifact>, id: nat, name: string)
    ensures |Named(OfRun(artifacts, id), {name})| == |Places(artifacts, id, name)|
    ensures forall i :: 0 <= i < |Places(artifacts, id, name)| ==>
                          && Places(artifacts, id, name)[i] < |artifacts|
                          && Named(OfRun(artifacts, id), {name})[i] == artifacts[Places(artifacts, id, name)[i]]
  {
    if artifacts != [] {
      var n := |artifacts| - 1;
      NamedPlaces(artifacts[..n], id, name);
      var before := OfRun(artifacts[..n], id);
      if artifacts[n].run == Some(id) {
        NamedAppend(before, artifacts[n], name);
        assert OfRun(artifacts, id) == before + [artifacts[n]];
      } else {
        assert OfRun(artifacts, id) == before + [];
        assert before + [] == before;
      }
    }
  }

  lemma NamedAppend(artifacts: seq<Artifact>, last: Artifact, name: string)
    ensures Named(artifacts + [last], {name}) == Named(artifacts, {name}) + (if last.name == name then [last] else [])
  {
    assert (artifacts + [last])[..|artifacts|] == artifacts;
  }

  lemma OncePlaces(q: Query, r: Run, artifacts: seq<Artifact>, name: string, k: nat)
    requires Once(q, r, artifacts, name, k)
    ensures Places(artifacts, r.id, name) == [k]
  {
    PlacesOffer(artifacts, r.id, name);
    var places := Places(artifacts, r.id, name);
    assert k in places;
    assert forall i :: 0 <= i < |places| ==> places[i] in places;
    FirstTwo(places);
  }

  lemma OnePlace(q: Query, r: Run, artifacts: seq<Artifact>, name: string)
    ensures
      var offered := Named(OfRun(artifacts, r.id), {name});
      (|offered| == 1 && Fresh(q, r, offered[0])) <==> exists k :: 0 <= k < |artifacts| && Once(q, r, artifacts, name, k)
  {
    NamedPlaces(artifacts, r.id, name);
    var offered, places := Named(OfRun(artifacts, r.id), {name}), Places(artifacts, r.id, name);
    if |offered| == 1 && Fresh(q, r, offered[0]) {
      PlacesOffer(artifacts, r.id, name);
      FreshMeans(q, r, offered[0]);
      assert places == [places[0]] && places[0] in places;
      assert Once(q, r, artifacts, name, places[0]);
    }
    forall k | 0 <= k < |artifacts| && Once(q, r, artifacts, name, k)
      ensures |offered| == 1 && Fresh(q, r, offered[0])
    {
      OncePlaces(q, r, artifacts, name, k);
      FreshMeans(q, r, artifacts[k]);
    }
  }

  lemma CompleteMeans(q: Query, r: Run, artifacts: seq<Artifact>)
    ensures Complete(q, r, artifacts) <==> Proves(q, r, artifacts)
  {
    forall name | name in q.required
      ensures
        var offered := Named(OfRun(artifacts, r.id), {name});
        (|offered| == 1 && Fresh(q, r, offered[0])) <==> exists k :: 0 <= k < |artifacts| && Once(q, r, artifacts, name, k)
    {
      OnePlace(q, r, artifacts, name);
    }
  }

  /** Where the Quality runs are in the list. */
  function RunPlaces(q: Query, runs: seq<Run>): seq<nat> {
    if runs == [] then []
    else
      var n := |runs| - 1;
      RunPlaces(q, runs[..n]) + (if Quality(q, runs[n]) then [n] else [])
  }

  lemma {:induction false} MatchedPlaces(q: Query, runs: seq<Run>)
    ensures Increasing(RunPlaces(q, runs)) && forall p: nat :: p in RunPlaces(q, runs) <==> Listed(q, runs, p)
    ensures |Matched(q, runs)| == |RunPlaces(q, runs)|
    ensures forall i :: 0 <= i < |RunPlaces(q, runs)| ==>
                          RunPlaces(q, runs)[i] < |runs| && Matched(q, runs)[i] == runs[RunPlaces(q, runs)[i]]
  {
    if runs != [] {
      var n := |runs| - 1;
      var before := RunPlaces(q, runs[..n]);
      MatchedPlaces(q, runs[..n]);
      MatchesMeans(q, runs[n]);
      assert forall p: nat :: p in before <==> p < n && Listed(q, runs, p);
      IncreasingAppend(before, n);
    }
  }

  /** Every Quality run is at one place of the matched ones, and in the same order. */
  lemma PlaceOf(q: Query, runs: seq<Run>, i: nat) returns (k: nat)
    requires Listed(q, runs, i)
    ensures k < |Matched(q, runs)| == |RunPlaces(q, runs)| && RunPlaces(q, runs)[k] == i && Matched(q, runs)[k] == runs[i]
  {
    MatchedPlaces(q, runs);
    assert i in RunPlaces(q, runs);
    k :| 0 <= k < |RunPlaces(q, runs)| && RunPlaces(q, runs)[k] == i;
  }

  lemma PlaceListed(q: Query, runs: seq<Run>, k: nat)
    requires k < |Matched(q, runs)|
    ensures |Matched(q, runs)| == |RunPlaces(q, runs)| && Increasing(RunPlaces(q, runs))
    ensures Listed(q, runs, RunPlaces(q, runs)[k]) && Matched(q, runs)[k] == runs[RunPlaces(q, runs)[k]]
  {
    MatchedPlaces(q, runs);
    assert RunPlaces(q, runs)[k] in RunPlaces(q, runs);
  }

  lemma DatedMeans(q: Query, runs: seq<Run>)
    ensures Dated(Matched(q, runs)) <==> forall i :: 0 <= i < |runs| && Listed(q, runs, i) ==> runs[i].started.Some?
  {
    var matched := Matched(q, runs);
    MatchedPlaces(q, runs);
    assert forall k :: 0 <= k < |matched| ==> RunPlaces(q, runs)[k] in RunPlaces(q, runs);
    if Dated(matched) {
      forall i | 0 <= i < |runs| && Listed(q, runs, i)
        ensures runs[i].started.Some?
      {
        var k := PlaceOf(q, runs, i);
      }
    }
  }

  lemma LatestMeans(q: Query, runs: seq<Run>, k: nat)
    requires Dated(Matched(q, runs)) && k < |Matched(q, runs)|
    ensures |Matched(q, runs)| == |RunPlaces(q, runs)|
    ensures Latest(Matched(q, runs), k) <==> LastStarted(q, runs, RunPlaces(q, runs)[k])
  {
    var matched, places := Matched(q, runs), RunPlaces(q, runs);
    DatedMeans(q, runs);
    PlaceListed(q, runs, k);
    var i := places[k];
    if Latest(matched, k) {
      forall j | 0 <= j < |runs| && Listed(q, runs, j)
        ensures runs[j].started.value < runs[i].started.value || (runs[j].started.value == runs[i].started.value && i <= j)
      {
        var m := PlaceOf(q, runs, j);
        OrderedPlaces(places, m, k);
      }
    }
    if LastStarted(q, runs, i) {
      forall m | 0 <= m < |matched|
        ensures matched[m].started.value <= matched[k].started.value && (m < k ==> matched[m].started.value < matched[k].started.value)
      {
        PlaceListed(q, runs, m);
        OrderedPlaces(places, m, k);
      }
    }
  }

  lemma GateMeans(q: Query, runs: seq<Run>)
    ensures GateOpen(q, Matched(q, runs)) <==> Open(q, runs)
  {
    var matched := Matched(q, runs);
    DatedMeans(q, runs);
    if matched != [] {
      PlaceListed(q, runs, 0);
    }
    forall i | 0 <= i < |runs| && Listed(q, runs, i)
      ensures matched != [] && (Dated(matched) && LastStarted(q, runs, i) && Succeeded(runs[i]) ==> GateOpen(q, matched))
    {
      var k := PlaceOf(q, runs, i);
      if Dated(matched) {
        LatestMeans(q, runs, k);
      }
    }
    if Dated(matched) {
      forall k | 0 <= k < |matched| && Latest(matched, k) && Successful(matched[k])
        ensures Open(q, runs)
      {
        LatestMeans(q, runs, k);
        PlaceListed(q, runs, k);
      }
    }
  }

  lemma ReusableMeans(q: Query, runs: seq<Run>, artifacts: seq<Artifact>, id: nat)
    ensures (exists k :: 0 <= k < |Matched(q, runs)| && Reusable(q, Matched(q, runs)[k], artifacts) && Matched(q, runs)[k].id == id)
       <==> (exists i :: 0 <= i < |runs| && Usable(q, runs, artifacts, i) && runs[i].id == id)
  {
    var matched := Matched(q, runs);
    forall k | 0 <= k < |matched| && Reusable(q, matched[k], artifacts) && matched[k].id == id
      ensures exists i :: 0 <= i < |runs| && Usable(q, runs, artifacts, i) && runs[i].id == id
    {
      PlaceListed(q, runs, k);
      CompleteMeans(q, matched[k], artifacts);
      assert Usable(q, runs, artifacts, RunPlaces(q, runs)[k]);
    }
    forall i | 0 <= i < |runs| && Usable(q, runs, artifacts, i) && runs[i].id == id
      ensures exists k :: 0 <= k < |matched| && Reusable(q, matched[k], artifacts) && matched[k].id == id
    {
      var k := PlaceOf(q, runs, i);
      CompleteMeans(q, runs[i], artifacts);
    }
  }

  // ----- The decisions

  /** A query without artifacts to look for, or for another age than one to twenty-four hours, is refused, and no other. */
  lemma InvalidExactly(q: Query, runs: seq<Run>, artifacts: seq<Artifact>, d: Decision)
    requires Right(q, runs, artifacts, d)
    ensures d.Invalid? <==> q.maxAgeHours < 1 || q.maxAgeHours > 24 || q.required == {}
  {
  }

  /** Somebody is ahead: the answer is to wait for the highest of them, and otherwise it never is. */
  lemma WaitsExactly(q: Query, runs: seq<Run>, artifacts: seq<Artifact>, d: Decision, id: nat)
    requires Right(q, runs, artifacts, d) && !d.Invalid?
    ensures d.InProgress? <==> exists i :: 0 <= i < |runs| && Ahead(q, runs, i)
    ensures d == InProgress(id) <==>
            && (exists i :: 0 <= i < |runs| && Ahead(q, runs, i) && runs[i].id == id)
            && (forall i :: 0 <= i < |runs| && Ahead(q, runs, i) ==> runs[i].id <= id)
  {
    forall i | 0 <= i < |runs|
      ensures Blocks(q, runs[i]) <==> Ahead(q, runs, i)
    {
      BlocksMeans(q, runs, i);
    }
  }

  /** Nobody is ahead: what is executed, and what is reused instead. */
  lemma ReusesExactly(q: Query, runs: seq<Run>, artifacts: seq<Artifact>, d: Decision, id: nat)
    requires Right(q, runs, artifacts, d) && !d.Invalid? && !d.InProgress?
    ensures d.Forced? <==> q.forceFull
    ensures d.LatestFailed? <==> !q.forceFull && !Open(q, runs)
    ensures d == Reused(id) <==>
            && !q.forceFull && Open(q, runs)
            && (exists i :: 0 <= i < |runs| && Usable(q, runs, artifacts, i) && runs[i].id == id)
            && (forall i :: 0 <= i < |runs| && Usable(q, runs, artifacts, i) ==> runs[i].id <= id)
    ensures d.NothingReusable? <==>
            !q.forceFull && Open(q, runs) && forall i :: 0 <= i < |runs| ==> !Usable(q, runs, artifacts, i)
  {
    GateMeans(q, runs);
    forall i | 0 <= i < |runs| && Usable(q, runs, artifacts, i)
      ensures exists k :: 0 <= k < |Matched(q, runs)| && Reusable(q, Matched(q, runs)[k], artifacts) && Matched(q, runs)[k].id == runs[i].id
    {
      ReusableMeans(q, runs, artifacts, runs[i].id);
    }
    if d.Reused? {
      ReusableMeans(q, runs, artifacts, d.run);
      HighestMeans(q, runs, artifacts, d.run);
    }
  }

  lemma HighestMeans(q: Query, runs: seq<Run>, artifacts: seq<Artifact>, id: nat)
    requires forall k :: 0 <= k < |Matched(q, runs)| && Reusable(q, Matched(q, runs)[k], artifacts) ==> Matched(q, runs)[k].id <= id
    ensures forall i :: 0 <= i < |runs| && Usable(q, runs, artifacts, i) ==> runs[i].id <= id
  {
    forall i | 0 <= i < |runs| && Usable(q, runs, artifacts, i)
      ensures runs[i].id <= id
    {
      ReusableMeans(q, runs, artifacts, runs[i].id);
    }
  }
}
