/**
  The sliding-window limiter: a pruned table of recent request times per key that must
  decide as if every accepted request had been kept.
 */
module RateLimiter {
  import opened Wrappers

  datatype Config = Config(limit: nat, window: real, maxKeys: nat)

  /** What the constructor accepts; `maxKeys` is the class's constant 4096. */
  predicate Usable(c: Config) { c.limit > 0 && c.window > 0.0 && c.maxKeys > 0 }

  /** `_requests`: the deques by key, and the keys in insertion order. */
  datatype Table = Table(order: seq<string>, requests: map<string, seq<real>>)

  const Empty := Table([], map[])

  function Of(t: Table, key: string): seq<real> {
    if key in t.requests then t.requests[key] else []
  }

  /** `_prune`: drop what is not younger than the threshold, from the front. */
  function Prune(q: seq<real>, threshold: real): seq<real> {
    if q != [] && q[0] <= threshold then Prune(q[1..], threshold) else q
  }

  function Without(order: seq<string>, key: string): seq<string> {
    if order == [] then []
    else if order[0] == key then Without(order[1..], key)
    else [order[0]] + Without(order[1..], key)
  }

  function Keeping(order: seq<string>, keys: set<string>): seq<string> {
    if order == [] then []
    else if order[0] in keys then [order[0]] + Keeping(order[1..], keys)
    else Keeping(order[1..], keys)
  }

  /** First loop of `_prune_keys`: prune every other key, delete the ones left empty. */
  function Expire(t: Table, threshold: real, preserve: string): Table {
    var requests := map k | k in t.requests && (k == preserve || Prune(t.requests[k], threshold) != [])
                      :: if k == preserve then t.requests[k] else Prune(t.requests[k], threshold);
    Table(Keeping(t.order, requests.Keys), requests)
  }

  predicate Distinct(s: seq<string>) {
    forall i, j :: 0 <= i < j < |s| ==> s[i] != s[j]
  }

  ghost predicate WellFormed(t: Table) {
    Distinct(t.order) && (forall k :: k in t.order <==> k in t.requests)
  }

  /** The first key that is not the preserved one. */
  function Victim(order: seq<string>, preserve: string): (v: string)
    requires |order| >= 2 && Distinct(order)
    ensures v in order && v != preserve
  {
    if order[0] != preserve then order[0] else order[1]
  }

  lemma {:induction false} WithoutAbsent(order: seq<string>, key: string)
    requires key !in order
    ensures Without(order, key) == order
  {
    if order != [] {
      WithoutAbsent(order[1..], key);
    }
  }

  lemma {:induction false} WithoutShrinks(order: seq<string>, key: string)
    requires Distinct(order)
    ensures Distinct(Without(order, key))
    ensures forall k :: k in Without(order, key) <==> k in order && k != key
    ensures |Without(order, key)| == |order| - (if key in order then 1 else 0)
  {
    if order != [] {
      var rest := order[1..];
      assert order == [order[0]] + rest;
      if order[0] == key {
        WithoutAbsent(rest, key);
      } else {
        WithoutShrinks(rest, key);
        DistinctCons(order[0], Without(rest, key));
      }
    }
  }

  lemma DistinctCons(key: string, rest: seq<string>)
    requires Distinct(rest) && key !in rest
    ensures Distinct([key] + rest)
  {
  }

  lemma {:induction false} KeepingKeeps(order: seq<string>, keys: set<string>)
    requires Distinct(order)
    ensures Distinct(Keeping(order, keys))
    ensures forall k :: k in Keeping(order, keys) <==> k in order && k in keys
    ensures |Keeping(order, keys)| <= |order|
  {
    if order != [] {
      KeepingKeeps(order[1..], keys);
      assert order == [order[0]] + order[1..];
    }
  }

  function Remove(t: Table, key: string): Table {
    Table(Without(t.order, key), t.requests - {key})
  }

  lemma RemoveKeepsForm(t: Table, key: string)
    requires WellFormed(t)
    ensures WellFormed(Remove(t, key))
    ensures |Remove(t, key).order| == |t.order| - (if key in t.order then 1 else 0)
  {
    WithoutShrinks(t.order, key);
  }

  /** Second loop of `_prune_keys`: forget live keys, oldest first, until the bound holds. */
  function Evict(t: Table, preserve: string, maxKeys: nat): Table
    requires WellFormed(t) && maxKeys > 0
    decreases |t.order|
  {
    if |t.order| <= maxKeys then t
    else
      RemoveKeepsForm(t, Victim(t.order, preserve));
      Evict(Remove(t, Victim(t.order, preserve)), preserve, maxKeys)
  }

  /** The keys the second loop forgets. */
  function Victims(t: Table, preserve: string, maxKeys: nat): set<string>
    requires WellFormed(t) && maxKeys > 0
    decreases |t.order|
  {
    if |t.order| <= maxKeys then {}
    else
      RemoveKeepsForm(t, Victim(t.order, preserve));
      {Victim(t.order, preserve)} + Victims(Remove(t, Victim(t.order, preserve)), preserve, maxKeys)
  }

  function Put(t: Table, key: string, q: seq<real>): Table {
    Table(if key in t.requests then t.order else t.order + [key], t.requests[key := q])
  }

  lemma PutTwice(t: Table, key: string, q: seq<real>, r: seq<real>)
    ensures Put(Put(t, key, q), key, r) == Put(t, key, r)
  {
  }

  /** Whole seconds to wait, as the program computes them. */
  function RetryAfter(oldest: real, window: real, now: real): int {
    var seconds := (oldest + window - now + 0.999).Floor;
    if seconds < 1 then 1 else seconds
  }

  datatype Answer = Answer(table: Table, retry: Option<int>, evicted: set<string>)

  /** `_prune_keys`, called when recording a request made the table too large. */
  function Settle(c: Config, t: Table, key: string, now: real): Answer
    requires Usable(c) && WellFormed(t)
  {
    if |t.order| <= c.maxKeys then Answer(t, None, {})
    else
      var expired := Expire(t, now - c.window, key);
      ExpireKeepsForm(t, now - c.window, key);
      Answer(Evict(expired, key, c.maxKeys), None, Victims(expired, key, c.maxKeys))
  }

  /** `check`: prune the key, then reject with a delay or record the request. */
  function Check(c: Config, t: Table, key: string, now: real): Answer
    requires Usable(c) && WellFormed(t)
  {
    var q := Prune(Of(t, key), now - c.window);
    if |q| >= c.limit then Answer(Put(t, key, q), Some(RetryAfter(q[0], c.window, now)), {})
    else
      PutKeepsForm(t, key, q + [now]);
      Settle(c, Put(t, key, q + [now]), key, now)
  }

  lemma PutKeepsForm(t: Table, key: string, q: seq<real>)
    requires WellFormed(t)
    ensures WellFormed(Put(t, key, q))
  {
  }

  lemma ExpireKeepsForm(t: Table, threshold: real, preserve: string)
    requires WellFormed(t)
    ensures WellFormed(Expire(t, threshold, preserve)) && |Expire(t, threshold, preserve).order| <= |t.order|
  {
    KeepingKeeps(t.order, Expire(t, threshold, preserve).requests.Keys);
  }

  /** Eviction ends within the bound, spares the current key, and touches nothing it does not forget. */
  lemma {:induction false} EvictBounds(t: Table, preserve: string, maxKeys: nat)
    requires WellFormed(t) && maxKeys > 0
    ensures WellFormed(Evict(t, preserve, maxKeys)) && |Evict(t, preserve, maxKeys).order| <= maxKeys
    ensures preserve !in Victims(t, preserve, maxKeys)
    ensures forall k :: Of(Evict(t, preserve, maxKeys), k) == if k in Victims(t, preserve, maxKeys) then [] else Of(t, k)
    decreases |t.order|
  {
    if |t.order| > maxKeys {
      var victim := Victim(t.order, preserve);
      RemoveKeepsForm(t, victim);
      EvictBounds(Remove(t, victim), preserve, maxKeys);
    }
  }

  // ----- Time

  predicate Ascending(q: seq<real>) {
    forall i, j :: 0 <= i < j < |q| ==> q[i] <= q[j]
  }

  /** How many of the recorded times lie in (from, to]. */
  function CountIn(log: seq<real>, from_: real, to: real): nat {
    if log == [] then 0
    else CountIn(log[..|log| - 1], from_, to) + (if from_ < log[|log| - 1] <= to then 1 else 0)
  }

  /** Pruning only ever drops a front of expired times. */
  lemma {:induction false} PruneDrops(q: seq<real>, threshold: real) returns (n: nat)
    ensures n <= |q| && Prune(q, threshold) == q[n..]
    ensures forall i :: 0 <= i < n ==> q[i] <= threshold
    ensures n < |q| ==> q[n] > threshold
  {
    if q != [] && q[0] <= threshold {
      var m := PruneDrops(q[1..], threshold);
      n := m + 1;
      assert q[1..][m..] == q[n..];
      assert forall i :: 0 < i < n ==> q[i] == q[1..][i - 1];
    } else {
      n := 0;
    }
  }

  /** Dropping expired times first makes no difference to a later pruning. */
  lemma {:induction false} PruneAgain(dropped: seq<real>, q: seq<real>, threshold: real)
    requires forall i :: 0 <= i < |dropped| ==> dropped[i] <= threshold
    ensures Prune(dropped + q, threshold) == Prune(q, threshold)
  {
    if dropped == [] {
      assert dropped + q == q;
    } else {
      assert (dropped + q)[1..] == dropped[1..] + q;
      PruneAgain(dropped[1..], q, threshold);
    }
  }

  /** In an ascending log that ends by `now`, pruning leaves exactly the times of the window. */
  lemma {:induction false} PruneCounts(log: seq<real>, threshold: real, now: real)
    requires Ascending(log) && forall i :: 0 <= i < |log| ==> log[i] <= now
    ensures |Prune(log, threshold)| == CountIn(log, threshold, now)
  {
    var n := PruneDrops(log, threshold);
    CountSuffix(log, n, threshold, now);
  }

  lemma {:induction false} CountSuffix(log: seq<real>, n: nat, from_: real, to: real)
    requires n <= |log|
    requires forall i :: 0 <= i < n ==> log[i] <= from_
    requires forall i :: n <= i < |log| ==> from_ < log[i] <= to
    ensures CountIn(log, from_, to) == |log| - n
  {
    if log != [] {
      CountSuffix(log[..|log| - 1], if n < |log| then n else n - 1, from_, to);
    }
  }

  // ----- Against the unpruned log

  datatype Call = Call(key: string, now: real)

  /** The table together with every accepted request and every key ever forgotten alive. */
  datatype History = History(table: Table, log: seq<Call>, evicted: set<string>)

  const Start := History(Empty, [], {})

  function Answered(c: Config, h: History, call: Call): Answer
    requires Usable(c) && WellFormed(h.table)
  {
    Check(c, h.table, call.key, call.now)
  }

  function Next(c: Config, h: History, call: Call): History
    requires Usable(c) && WellFormed(h.table)
  {
    Recorded(h, call, Answered(c, h, call))
  }

  function Recorded(h: History, call: Call, a: Answer): History {
    History(a.table, if a.retry.None? then h.log + [call] else h.log, h.evicted + a.evicted)
  }

  /** The accepted times of one key. */
  function Times(log: seq<Call>, key: string): seq<real> {
    if log == [] then []
    else Times(log[..|log| - 1], key) + (if log[|log| - 1].key == key then [log[|log| - 1].now] else [])
  }

  lemma TimesAppend(log: seq<Call>, call: Call, key: string)
    ensures Times(log + [call], key) == Times(log, key) + (if call.key == key then [call.now] else [])
  {
    assert (log + [call])[..|log|] == log;
  }

  /** The request `limit` places earlier has left the window by the time a later one is accepted. */
  ghost predicate Spaced(c: Config, times: seq<real>) {
    forall i, j :: 0 <= i && j == i + c.limit && j < |times| ==> times[i] <= times[j] - c.window
  }

  predicate UpTo(times: seq<real>, last: real) { forall i :: 0 <= i < |times| ==> times[i] <= last }

  lemma UpToLater(times: seq<real>, last: real, now: real)
    requires UpTo(times, last) && last <= now
    ensures UpTo(times, now)
  {
  }

  /** A key's log up to `last`, unless the key was `lost` once. */
  ghost predicate Logged(c: Config, times: seq<real>, last: real, lost: bool) {
    Ascending(times) && UpTo(times, last) && (!lost ==> Spaced(c, times))
  }

  /** A deque is that log without a front that expired by `last`. */
  ghost predicate Holds(c: Config, times: seq<real>, q: seq<real>, last: real, lost: bool) {
    |q| <= c.limit && (!lost ==> Tail(times, q, last - c.window))
  }

  ghost predicate Mirrors(c: Config, times: seq<real>, q: seq<real>, last: real, lost: bool) {
    Logged(c, times, last, lost) && Holds(c, times, q, last, lost)
  }

  ghost predicate Faithful(c: Config, h: History, key: string, last: real) {
    Mirrors(c, Times(h.log, key), Of(h.table, key), last, key in h.evicted)
  }

  ghost predicate Consistent(c: Config, h: History, last: real) {
    && Usable(c) && WellFormed(h.table) && |h.table.order| <= c.maxKeys
    && forall key :: Faithful(c, h, key, last)
  }

  // ----- One call

  /** Expiring keys leaves the current key alone and prunes the others; a missing key counts as empty. */
  lemma ExpirePrunes(t: Table, threshold: real, preserve: string, k: string)
    ensures Of(Expire(t, threshold, preserve), k) == if k == preserve then Of(t, k) else Prune(Of(t, k), threshold)
  {
  }

  predicate Forgotten(a: Answer, k: string) { k in a.evicted && Of(a.table, k) == [] }

  /** What eviction leaves of a table and what it forgets. */
  predicate Bounded(a: Answer, key: string, maxKeys: nat) {
    |a.table.order| <= maxKeys && key !in a.evicted && a.retry.None?
  }

  lemma EvictAnswers(t: Table, key: string, maxKeys: nat, k: string) returns (a: Answer)
    requires WellFormed(t) && maxKeys > 0
    ensures a == Answer(Evict(t, key, maxKeys), None, Victims(t, key, maxKeys))
    ensures WellFormed(a.table) && Bounded(a, key, maxKeys)
    ensures Of(a.table, k) == if k in a.evicted then [] else Of(t, k)
  {
    EvictBounds(t, key, maxKeys);
    a := Answer(Evict(t, key, maxKeys), None, Victims(t, key, maxKeys));
  }

  /** Cleaning up leaves a key alone, prunes it or forgets it, and the current key is left alone. */
  predicate Cleaned(q: seq<real>, q': seq<real>, threshold: real, current: bool, forgotten: bool) {
    if current then q' == q else (forgotten && q' == []) || q' == q || q' == Prune(q, threshold)
  }

  /** It brings the table within its bound and spares the current key. */
  lemma SettleCleans(c: Config, t: Table, key: string, now: real, k: string) returns (a: Answer)
    requires Usable(c) && WellFormed(t)
    ensures a == Settle(c, t, key, now)
    ensures WellFormed(a.table) && Bounded(a, key, c.maxKeys)
    ensures Cleaned(Of(t, k), Of(a.table, k), now - c.window, k == key, k in a.evicted)
  {
    if |t.order| > c.maxKeys {
      ExpireKeepsForm(t, now - c.window, key);
      ExpirePrunes(t, now - c.window, key, k);
      a := EvictAnswers(Expire(t, now - c.window, key), key, c.maxKeys, k);
    } else {
      a := Answer(t, None, {});
    }
  }

  /**
    One call: the current key is never forgotten and records the request exactly when it is
    accepted; any other key is left alone, pruned, or forgotten; the table keeps its bound.
   */
  ghost predicate Effect(c: Config, t: Table, key: string, now: real, a: Answer, k: string) {
    var q := Prune(Of(t, key), now - c.window);
    && key !in a.evicted && (a.retry.None? <==> |q| < c.limit)
    && Of(a.table, key) == (if a.retry.None? then q + [now] else q)
    && (k != key ==> Forgotten(a, k) || Of(a.table, k) == Of(t, k) || Of(a.table, k) == Prune(Of(t, k), now - c.window))
    && WellFormed(a.table) && (|t.order| <= c.maxKeys ==> |a.table.order| <= c.maxKeys)
  }

  lemma PutOf(t: Table, key: string, q: seq<real>, k: string)
    ensures Of(Put(t, key, q), k) == if k == key then q else Of(t, k)
    ensures |Put(t, key, q).order| == |t.order| + if key in t.requests then 0 else 1
  {
  }

  lemma RejectEffect(c: Config, t: Table, key: string, now: real, k: string)
    requires Usable(c) && WellFormed(t) && |Prune(Of(t, key), now - c.window)| >= c.limit
    ensures Effect(c, t, key, now, Check(c, t, key, now), k)
  {
    var q := Prune(Of(t, key), now - c.window);
    PutKeepsForm(t, key, q);
    PutOf(t, key, q, key);
    PutOf(t, key, q, k);
  }

  /** Cleaning up after a recorded request, without looking at how. */
  lemma SettledEffect(c: Config, t: Table, t': Table, key: string, now: real, a: Answer, k: string)
    requires |Prune(Of(t, key), now - c.window)| < c.limit && Of(t', key) == Prune(Of(t, key), now - c.window) + [now]
    requires k != key ==> Of(t', k) == Of(t, k)
    requires WellFormed(a.table) && Bounded(a, key, c.maxKeys) && Of(a.table, key) == Of(t', key)
    requires Cleaned(Of(t', k), Of(a.table, k), now - c.window, k == key, k in a.evicted)
    ensures Effect(c, t, key, now, a, k)
  {
  }

  /** A request that is recorded, and then cleaned up after. */
  lemma CheckAccepts(c: Config, t: Table, key: string, now: real) returns (t': Table)
    requires Usable(c) && WellFormed(t) && |Prune(Of(t, key), now - c.window)| < c.limit
    ensures WellFormed(t') && Check(c, t, key, now) == Settle(c, t', key, now)
    ensures forall k :: Of(t', k) == if k == key then Prune(Of(t, key), now - c.window) + [now] else Of(t, k)
  {
    var q := Prune(Of(t, key), now - c.window);
    PutKeepsForm(t, key, q + [now]);
    t' := Put(t, key, q + [now]);
  }

  lemma AcceptEffect(c: Config, t: Table, key: string, now: real, k: string)
    requires Usable(c) && WellFormed(t) && |Prune(Of(t, key), now - c.window)| < c.limit
    ensures Effect(c, t, key, now, Check(c, t, key, now), k)
  {
    var t' := CheckAccepts(c, t, key, now);
    var own := SettleCleans(c, t', key, now, key);
    var a := SettleCleans(c, t', key, now, k);
    SettledEffect(c, t, t', key, now, a, k);
  }

  lemma CheckEffect(c: Config, t: Table, key: string, now: real, k: string)
    requires Usable(c) && WellFormed(t)
    ensures Effect(c, t, key, now, Check(c, t, key, now), k)
  {
    if |Prune(Of(t, key), now - c.window)| >= c.limit {
      RejectEffect(c, t, key, now, k);
    } else {
      AcceptEffect(c, t, key, now, k);
    }
  }

  /** `q` is the log without a front that had expired by `last`. */
  ghost predicate Tail(times: seq<real>, q: seq<real>, expiry: real) {
    exists n: nat :: n <= |times| && q == times[n..] && forall i :: 0 <= i < n ==> times[i] <= expiry
  }

  lemma TailSplit(times: seq<real>, n: nat, threshold: real) returns (m: nat)
    requires n <= |times| && forall i :: 0 <= i < n ==> times[i] <= threshold
    ensures m <= |times| && Prune(times[n..], threshold) == times[m..] == Prune(times, threshold)
    ensures forall i :: 0 <= i < m ==> times[i] <= threshold
  {
    var d := PruneDrops(times[n..], threshold);
    m := n + d;
    assert times[n..][d..] == times[m..];
    assert forall i :: n <= i < m ==> times[i] == times[n..][i - n];
    PruneAgain(times[..n], times[n..], threshold);
    assert times[..n] + times[n..] == times;
  }

  /** Pruning the tail of a log gives the tail that pruning the whole log gives. */
  lemma TailPruned(times: seq<real>, q: seq<real>, expiry: real, threshold: real)
    requires Tail(times, q, expiry) && expiry <= threshold
    ensures Tail(times, Prune(q, threshold), threshold)
    ensures Prune(q, threshold) == Prune(times, threshold)
  {
    var n: nat :| n <= |times| && q == times[n..] && forall i :: 0 <= i < n ==> times[i] <= expiry;
    var m := TailSplit(times, n, threshold);
  }

  /** Recording an accepted request keeps the tail, and the distance between `limit` requests. */
  lemma TailExtended(c: Config, times: seq<real>, q: seq<real>, now: real)
    requires Usable(c) && Tail(times, q, now - c.window) && |q| < c.limit && Spaced(c, times)
    ensures Tail(times + [now], q + [now], now - c.window) && Spaced(c, times + [now])
  {
    var n: nat :| n <= |times| && q == times[n..] && forall i :: 0 <= i < n ==> times[i] <= now - c.window;
    assert (times + [now])[n..] == q + [now];
    forall i, j | 0 <= i && j == i + c.limit && j < |times + [now]|
      ensures (times + [now])[i] <= (times + [now])[j] - c.window
    {
      if j == |times| {
        assert i < n;
      }
    }
  }

  lemma DecisionByTimes(times: seq<real>, q: seq<real>, expiry: real, threshold: real, now: real)
    requires Ascending(times) && UpTo(times, now)
    requires Tail(times, q, expiry) && expiry <= threshold
    ensures |Prune(q, threshold)| == CountIn(times, threshold, now)
  {
    TailPruned(times, q, expiry, threshold);
    PruneCounts(times, threshold, now);
  }

  lemma MirrorsCount(c: Config, times: seq<real>, q: seq<real>, last: real, now: real)
    requires Mirrors(c, times, q, last, false) && last <= now
    ensures |Prune(q, now - c.window)| == CountIn(times, now - c.window, now)
  {
    DecisionByTimes(times, q, last - c.window, now - c.window, now);
  }

  /** The answer depends on the key's recent times only. */
  lemma CheckRetry(c: Config, t: Table, key: string, now: real)
    requires Usable(c) && WellFormed(t)
    ensures
      var q := Prune(Of(t, key), now - c.window);
      Check(c, t, key, now).retry == if |q| >= c.limit then Some(RetryAfter(q[0], c.window, now)) else None
  {
    CheckEffect(c, t, key, now, key);
  }

  /** The decision is the one the unpruned log would give. */
  lemma DecidesByLog(c: Config, h: History, last: real, call: Call)
    requires Consistent(c, h, last) && last <= call.now && call.key !in h.evicted
    ensures Answered(c, h, call).retry.None? <==>
            CountIn(Times(h.log, call.key), call.now - c.window, call.now) < c.limit
  {
    assert CountIn(Times(h.log, call.key), call.now - c.window, call.now) == |Prune(Of(h.table, call.key), call.now - c.window)| by {
      assert Faithful(c, h, call.key, last);
      MirrorsCount(c, Times(h.log, call.key), Of(h.table, call.key), last, call.now);
    }
    CheckRetry(c, h.table, call.key, call.now);
  }

  lemma PruneShorter(q: seq<real>, threshold: real)
    ensures |Prune(q, threshold)| <= |q|
  {
    var n := PruneDrops(q, threshold);
  }

  lemma LoggedLater(c: Config, times: seq<real>, last: real, now: real, lost: bool)
    requires Logged(c, times, last, lost) && last <= now
    ensures Logged(c, times, now, lost)
  {
    UpToLater(times, last, now);
  }

  lemma HoldsPruned(c: Config, times: seq<real>, q: seq<real>, last: real, now: real, lost: bool)
    requires Holds(c, times, q, last, lost) && last <= now
    ensures Holds(c, times, Prune(q, now - c.window), now, lost)
  {
    PruneShorter(q, now - c.window);
    if !lost {
      TailPruned(times, q, last - c.window, now - c.window);
    }
  }

  lemma HoldsLater(c: Config, times: seq<real>, q: seq<real>, last: real, now: real, lost: bool)
    requires Holds(c, times, q, last, lost) && last <= now
    ensures Holds(c, times, q, now, lost)
  {
    if !lost {
      var n: nat :| n <= |times| && q == times[n..] && forall i :: 0 <= i < n ==> times[i] <= last - c.window;
      assert q == times[n..] && forall i :: 0 <= i < n ==> times[i] <= now - c.window;
    }
  }

  lemma MirrorsPruned(c: Config, times: seq<real>, q: seq<real>, last: real, now: real, lost: bool)
    requires Mirrors(c, times, q, last, lost) && last <= now
    ensures Mirrors(c, times, Prune(q, now - c.window), now, lost)
  {
    LoggedLater(c, times, last, now, lost);
    HoldsPruned(c, times, q, last, now, lost);
  }

  lemma MirrorsLater(c: Config, times: seq<real>, q: seq<real>, last: real, now: real, lost: bool)
    requires Mirrors(c, times, q, last, lost) && last <= now
    ensures Mirrors(c, times, q, now, lost)
  {
    LoggedLater(c, times, last, now, lost);
    HoldsLater(c, times, q, last, now, lost);
  }

  lemma MirrorsExtended(c: Config, times: seq<real>, q: seq<real>, now: real, lost: bool)
    requires Usable(c) && Mirrors(c, times, q, now, lost) && |q| < c.limit
    ensures Mirrors(c, times + [now], q + [now], now, lost)
  {
    if !lost {
      TailExtended(c, times, q, now);
    }
  }

  lemma OtherKeyFaithful(c: Config, h: History, last: real, call: Call, a: Answer, k: string)
    requires Faithful(c, h, k, last) && last <= call.now && k != call.key
    requires Effect(c, h.table, call.key, call.now, a, k)
    ensures Faithful(c, Recorded(h, call, a), k, call.now)
  {
    var times, q, lost := Times(h.log, k), Of(h.table, k), k in h.evicted;
    TimesAppend(h.log, call, k);
    assert Times(Recorded(h, call, a).log, k) == times;
    MirrorsPruned(c, times, q, last, call.now, lost);
    MirrorsLater(c, times, q, last, call.now, lost);
  }

  lemma OwnKeyFaithful(c: Config, h: History, last: real, call: Call, a: Answer)
    requires Usable(c) && Faithful(c, h, call.key, last) && last <= call.now
    requires Effect(c, h.table, call.key, call.now, a, call.key)
    ensures Faithful(c, Recorded(h, call, a), call.key, call.now)
  {
    var times, q, lost := Times(h.log, call.key), Of(h.table, call.key), call.key in h.evicted;
    TimesAppend(h.log, call, call.key);
    MirrorsPruned(c, times, q, last, call.now, lost);
    if a.retry.None? {
      MirrorsExtended(c, times, Prune(q, call.now - c.window), call.now, lost);
    }
  }

  /** Every call with a clock that does not run backwards keeps table and log consistent. */
  lemma CallKeeps(c: Config, h: History, last: real, call: Call)
    requires Consistent(c, h, last) && last <= call.now
    ensures Consistent(c, Next(c, h, call), call.now)
  {
    CheckEffect(c, h.table, call.key, call.now, call.key);
    forall k
      ensures Faithful(c, Next(c, h, call), k, call.now)
    {
      if k == call.key {
        CheckEffect(c, h.table, call.key, call.now, k);
        OwnKeyFaithful(c, h, last, call, Answered(c, h, call));
      } else {
        CheckEffect(c, h.table, call.key, call.now, k);
        OtherKeyFaithful(c, h, last, call, Answered(c, h, call), k);
      }
    }
  }

  // ----- Runs

  predicate Clocked(calls: seq<Call>, last: real) {
    (forall i :: 0 <= i < |calls| ==> last <= calls[i].now) && forall i, j :: 0 <= i < j < |calls| ==> calls[i].now <= calls[j].now
  }

  function LastTime(calls: seq<Call>, last: real): real {
    if calls == [] then last else calls[|calls| - 1].now
  }

  lemma ClockedTail(calls: seq<Call>, last: real)
    requires Clocked(calls, last) && calls != []
    ensures last <= calls[0].now && Clocked(calls[1..], calls[0].now)
    ensures LastTime(calls[1..], calls[0].now) == LastTime(calls, last)
  {
  }

  /** The limiter after a sequence of calls. */
  ghost function Replay(c: Config, h: History, last: real, calls: seq<Call>): (h': History)
    requires Consistent(c, h, last) && Clocked(calls, last)
    ensures Consistent(c, h', LastTime(calls, last))
    decreases |calls|
  {
    if calls == [] then h
    else
      CallKeeps(c, h, last, calls[0]);
      ClockedTail(calls, last);
      Replay(c, Next(c, h, calls[0]), calls[0].now, calls[1..])
  }

  lemma StartConsistent(c: Config, begin: real)
    requires Usable(c)
    ensures Consistent(c, Start, begin)
  {
    forall key
      ensures Faithful(c, Start, key, begin)
    {
      assert Times([], key) == [] && Of(Empty, key) == [];
      assert [] == Times([], key)[0..];
    }
  }

  /**
    After any calls with a clock that does not run backwards, a key that was never forgotten
    alive is accepted exactly when fewer than `limit` of its accepted requests lie in the
    window that ends now; and the table holds at most `maxKeys` keys.
   */
  lemma RefinesLog(c: Config, begin: real, calls: seq<Call>, call: Call)
    requires Usable(c) && Clocked(calls, begin) && LastTime(calls, begin) <= call.now
    ensures Consistent(c, Start, begin)
    ensures
      var h := Replay(c, Start, begin, calls);
      && |h.table.order| <= c.maxKeys
      && (call.key !in h.evicted ==>
            (Answered(c, h, call).retry.None? <==>
             CountIn(Times(h.log, call.key), call.now - c.window, call.now) < c.limit))
  {
    StartConsistent(c, begin);
    var h := Replay(c, Start, begin, calls);
    if call.key !in h.evicted {
      DecidesByLog(c, h, LastTime(calls, begin), call);
    }
  }

  lemma {:induction false} CountAtMost(times: seq<real>, n: nat, from_: real, to: real)
    requires n <= |times| && forall i :: 0 <= i < n ==> times[i] <= from_
    ensures CountIn(times, from_, to) <= |times| - n
  {
    if times != [] {
      CountAtMost(times[..|times| - 1], if n < |times| then n else n - 1, from_, to);
    }
  }

  lemma {:induction false} SpacedCount(c: Config, times: seq<real>, from_: real)
    requires Usable(c) && Ascending(times) && Spaced(c, times)
    ensures CountIn(times, from_, from_ + c.window) <= c.limit
  {
    if times != [] {
      var n := |times| - 1;
      if from_ < times[n] <= from_ + c.window {
        var front := times[..n];
        assert n >= c.limit ==> forall i :: 0 <= i <= n - c.limit ==> times[i] <= times[n - c.limit] <= times[n] - c.window;
        CountAtMost(front, if n >= c.limit then n - c.limit + 1 else 0, from_, from_ + c.window);
      } else {
        SpacedCount(c, times[..n], from_);
      }
    }
  }

  /** No window of that length ever holds more than `limit` accepted requests of such a key. */
  lemma NoWindowOverrun(c: Config, begin: real, calls: seq<Call>, key: string, from_: real)
    requires Usable(c) && Clocked(calls, begin)
    ensures Consistent(c, Start, begin)
    ensures
      var h := Replay(c, Start, begin, calls);
      key !in h.evicted ==> CountIn(Times(h.log, key), from_, from_ + c.window) <= c.limit
  {
    StartConsistent(c, begin);
    var h := Replay(c, Start, begin, calls);
    assert Faithful(c, h, key, LastTime(calls, begin));
    if key !in h.evicted {
      SpacedCount(c, Times(h.log, key), from_);
    }
  }

  lemma RetrySame(c: Config, t: Table, u: Table, key: string, now: real)
    requires Usable(c) && WellFormed(t) && WellFormed(u)
    requires Prune(Of(t, key), now - c.window) == Prune(Of(u, key), now - c.window)
    ensures Check(c, t, key, now).retry == Check(c, u, key, now).retry
  {
    CheckRetry(c, t, key, now);
    CheckRetry(c, u, key, now);
  }

  lemma PruneTwice(q: seq<real>, threshold: real, later: real)
    requires threshold <= later
    ensures Prune(Prune(q, threshold), later) == Prune(q, later)
  {
    var n := PruneDrops(q, threshold);
    PruneAgain(q[..n], q[n..], later);
    assert q[..n] + q[n..] == q;
  }

  /** Two tables hold the same live times for every key that was not lost in one of them. */
  ghost predicate Alike(c: Config, t: Table, u: Table, last: real, lost: set<string>) {
    forall k :: k !in lost ==> SameTimes(Of(t, k), Of(u, k), last - c.window)
  }

  predicate SameTimes(q: seq<real>, r: seq<real>, threshold: real) { Prune(q, threshold) == Prune(r, threshold) }

  lemma SameTimesLater(q: seq<real>, r: seq<real>, threshold: real, later: real)
    requires SameTimes(q, r, threshold) && threshold <= later
    ensures SameTimes(q, r, later)
  {
    PruneTwice(q, threshold, later);
    PruneTwice(r, threshold, later);
  }

  /** What a call may do to a key that is not its own leaves the key's live times alone. */
  lemma LiveTimesStay(q: seq<real>, q': seq<real>, threshold: real)
    requires q' == q || q' == Prune(q, threshold)
    ensures SameTimes(q', q, threshold)
  {
    PruneTwice(q, threshold, threshold);
  }

  function OwnTimes(c: Config, q: seq<real>, now: real): seq<real> {
    var p := Prune(q, now - c.window);
    if |p| < c.limit then p + [now] else p
  }

  /** One call, as far as a key that is not lost can tell. */
  predicate Touches(c: Config, t: Table, t': Table, call: Call, k: string) {
    if k == call.key then Of(t', k) == OwnTimes(c, Of(t, k), call.now)
    else Of(t', k) == Of(t, k) || Of(t', k) == Prune(Of(t, k), call.now - c.window)
  }

  ghost predicate TouchesAll(c: Config, t: Table, t': Table, call: Call, lost: set<string>) {
    forall k :: k !in lost ==> Touches(c, t, t', call, k)
  }

  lemma EffectTouches(c: Config, t: Table, call: Call, a: Answer, k: string)
    requires Effect(c, t, call.key, call.now, a, k) && k !in a.evicted
    ensures Touches(c, t, a.table, call, k)
  {
  }

  lemma CheckTouches(c: Config, t: Table, call: Call)
    requires Usable(c) && WellFormed(t)
    ensures
      var a := Check(c, t, call.key, call.now);
      WellFormed(a.table) && TouchesAll(c, t, a.table, call, a.evicted)
  {
    AllEffects(c, t, call.key, call.now);
    EffectsTouch(c, t, call, Check(c, t, call.key, call.now));
  }

  lemma AllEffects(c: Config, t: Table, key: string, now: real)
    requires Usable(c) && WellFormed(t)
    ensures forall k :: Effect(c, t, key, now, Check(c, t, key, now), k)
  {
    forall k
      ensures Effect(c, t, key, now, Check(c, t, key, now), k)
    {
      CheckEffect(c, t, key, now, k);
    }
  }

  lemma EffectsTouch(c: Config, t: Table, call: Call, a: Answer)
    requires forall k :: Effect(c, t, call.key, call.now, a, k)
    ensures WellFormed(a.table) && TouchesAll(c, t, a.table, call, a.evicted)
  {
    assert Effect(c, t, call.key, call.now, a, call.key);
    forall k | k !in a.evicted
      ensures Touches(c, t, a.table, call, k)
    {
      EffectTouches(c, t, call, a, k);
    }
  }

  lemma TouchedAlike(c: Config, t: Table, t': Table, u: Table, u': Table, last: real, call: Call, k: string)
    requires last <= call.now && SameTimes(Of(t, k), Of(u, k), last - c.window)
    requires Touches(c, t, t', call, k) && Touches(c, u, u', call, k)
    ensures SameTimes(Of(t', k), Of(u', k), call.now - c.window)
  {
    SameTimesLater(Of(t, k), Of(u, k), last - c.window, call.now - c.window);
    if k != call.key {
      LiveTimesStay(Of(t, k), Of(t', k), call.now - c.window);
      LiveTimesStay(Of(u, k), Of(u', k), call.now - c.window);
    }
  }

  /** A call on a table; the keys it forgets alive are among `lost`. */
  ghost predicate Plays(c: Config, t: Table, call: Call, t': Table, lost: set<string>)
    requires Usable(c)
  {
    WellFormed(t) && Check(c, t, call.key, call.now).table == t' && Check(c, t, call.key, call.now).evicted <= lost
  }

  /** The tables that any calls lead through, call by call. */
  ghost predicate PlaysAll(c: Config, tables: seq<Table>, calls: seq<Call>, lost: set<string>)
    requires Usable(c)
  {
    |tables| == |calls| + 1 && forall i :: 0 <= i < |calls| ==> Plays(c, tables[i], calls[i], tables[i + 1], lost)
  }

  lemma PlaysTouches(c: Config, t: Table, call: Call, t': Table, lost: set<string>)
    requires Usable(c) && Plays(c, t, call, t', lost)
    ensures WellFormed(t') && TouchesAll(c, t, t', call, lost)
  {
    CheckTouches(c, t, call);
  }

  /** From every table and for any calls there is such a sequence. */
  lemma {:induction false} SomethingPlays(c: Config, t: Table, calls: seq<Call>) returns (tables: seq<Table>, lost: set<string>)
    requires Usable(c) && WellFormed(t)
    ensures PlaysAll(c, tables, calls, lost) && tables[0] == t
    decreases |calls|
  {
    if calls == [] {
      tables, lost := [t], {};
    } else {
      var a := Check(c, t, calls[0].key, calls[0].now);
      CheckTouches(c, t, calls[0]);
      var rest, gone := SomethingPlays(c, a.table, calls[1..]);
      tables, lost := [t] + rest, a.evicted + gone;
      assert Plays(c, t, calls[0], rest[0], lost);
      PlaysCons(c, t, rest, calls, gone, lost);
    }
  }

  lemma PlaysCons(c: Config, t: Table, rest: seq<Table>, calls: seq<Call>, gone: set<string>, lost: set<string>)
    requires Usable(c) && calls != [] && PlaysAll(c, rest, calls[1..], gone) && gone <= lost && Plays(c, t, calls[0], rest[0], lost)
    ensures PlaysAll(c, [t] + rest, calls, lost)
  {
    var tables := [t] + rest;
    forall i | 0 <= i < |calls|
      ensures Plays(c, tables[i], calls[i], tables[i + 1], lost)
    {
      if i > 0 {
        assert Plays(c, rest[i - 1], calls[1..][i - 1], rest[i - 1 + 1], gone);
      }
    }
  }

  /** The same, as far as keys that are not lost can tell. */
  ghost predicate Through(c: Config, tables: seq<Table>, calls: seq<Call>, lost: set<string>) {
    |tables| == |calls| + 1 && forall i :: 0 <= i < |calls| ==> TouchesAll(c, tables[i], tables[i + 1], calls[i], lost)
  }

  lemma PlaysThrough(c: Config, tables: seq<Table>, calls: seq<Call>, lost: set<string>)
    requires Usable(c) && PlaysAll(c, tables, calls, lost) && WellFormed(tables[0])
    ensures Through(c, tables, calls, lost) && WellFormed(tables[|calls|])
  {
    forall i | 0 <= i < |calls|
      ensures TouchesAll(c, tables[i], tables[i + 1], calls[i], lost)
    {
      PlaysTouches(c, tables[i], calls[i], tables[i + 1], lost);
    }
    if calls != [] {
      var n := |calls| - 1;
      PlaysTouches(c, tables[n], calls[n], tables[n + 1], lost);
    }
  }

  /** Two sequences of tables that begin alike stay alike, for every key lost in neither. */
  lemma {:induction false} AlikeThrough(c: Config, ts: seq<Table>, us: seq<Table>, last: real, lost: set<string>, calls: seq<Call>)
    requires Through(c, ts, calls, lost) && Through(c, us, calls, lost) && Clocked(calls, last) && Alike(c, ts[0], us[0], last, lost)
    ensures Alike(c, ts[|calls|], us[|calls|], LastTime(calls, last), lost)
    decreases |calls|
  {
    if calls != [] {
      AlikeStep(c, ts[0], ts[1], us[0], us[1], last, lost, calls[0]);
      ClockedTail(calls, last);
      ThroughTail(c, ts, calls, lost);
      ThroughTail(c, us, calls, lost);
      AlikeThrough(c, ts[1..], us[1..], calls[0].now, lost, calls[1..]);
    }
  }

  lemma ThroughTail(c: Config, ts: seq<Table>, calls: seq<Call>, lost: set<string>)
    requires calls != [] && Through(c, ts, calls, lost)
    ensures Through(c, ts[1..], calls[1..], lost) && TouchesAll(c, ts[0], ts[1], calls[0], lost)
  {
    forall i | 0 <= i < |calls[1..]|
      ensures TouchesAll(c, ts[1..][i], ts[1..][i + 1], calls[1..][i], lost)
    {
      assert TouchesAll(c, ts[i + 1], ts[i + 1 + 1], calls[i + 1], lost);
    }
    assert TouchesAll(c, ts[0], ts[0 + 1], calls[0], lost);
  }

  lemma AlikeStep(c: Config, t: Table, t': Table, u: Table, u': Table, last: real, lost: set<string>, call: Call)
    requires TouchesAll(c, t, t', call, lost) && TouchesAll(c, u, u', call, lost) && Alike(c, t, u, last, lost) && last <= call.now
    ensures Alike(c, t', u', call.now, lost)
  {
    forall k | k !in lost
      ensures SameTimes(Of(t', k), Of(u', k), call.now - c.window)
    {
      assert SameTimes(Of(t, k), Of(u, k), last - c.window) && Touches(c, t, t', call, k) && Touches(c, u, u', call, k);
      TouchedAlike(c, t, t', u, u', last, call, k);
    }
  }

  lemma ExpiredIsAlike(c: Config, t: Table, last: real, threshold: real, preserve: string, lost: set<string>)
    requires threshold <= last - c.window
    ensures Alike(c, t, Expire(t, threshold, preserve), last, lost)
  {
    forall k
      ensures SameTimes(Of(t, k), Of(Expire(t, threshold, preserve), k), last - c.window)
    {
      ExpirePrunes(t, threshold, preserve, k);
      PruneTwice(Of(t, k), threshold, last - c.window);
    }
  }

  /**
    Deleting expired keys changes no later decision: whatever calls follow, and whatever tables
    they lead through with and without the deletion, a key that is forgotten alive in neither
    gets the same answer.
   */
  lemma ExpiryIsInvisible(c: Config, ts: seq<Table>, us: seq<Table>, last: real, threshold: real, preserve: string,
                          calls: seq<Call>, lost: set<string>, call: Call)
    requires Usable(c) && PlaysAll(c, ts, calls, lost) && PlaysAll(c, us, calls, lost)
    requires WellFormed(ts[0]) && us[0] == Expire(ts[0], threshold, preserve) && threshold <= last - c.window
    requires Clocked(calls, last) && LastTime(calls, last) <= call.now && call.key !in lost
    ensures WellFormed(ts[|calls|]) && WellFormed(us[|calls|])
    ensures Check(c, ts[|calls|], call.key, call.now).retry == Check(c, us[|calls|], call.key, call.now).retry
  {
    ExpireKeepsForm(ts[0], threshold, preserve);
    ExpiredIsAlike(c, ts[0], last, threshold, preserve, lost);
    PlaysThrough(c, ts, calls, lost);
    PlaysThrough(c, us, calls, lost);
    AlikeThrough(c, ts, us, last, lost, calls);
    AlikeAnswer(c, ts[|calls|], us[|calls|], LastTime(calls, last), lost, call);
  }

  lemma AlikeAnswer(c: Config, t: Table, u: Table, last: real, lost: set<string>, call: Call)
    requires Usable(c) && WellFormed(t) && WellFormed(u) && Alike(c, t, u, last, lost) && call.key !in lost && last <= call.now
    ensures Check(c, t, call.key, call.now).retry == Check(c, u, call.key, call.now).retry
  {
    assert SameTimes(Of(t, call.key), Of(u, call.key), last - c.window);
    SameTimesLater(Of(t, call.key), Of(u, call.key), last - c.window, call.now - c.window);
    RetrySame(c, t, u, call.key, call.now);
  }

  // ----- Retry-After

  /** The true remaining wait at a rejection, and the whole seconds announced for it. */
  lemma RetryBounds(oldest: real, window: real, now: real)
    requires oldest <= now < oldest + window
    ensures
      var r := oldest + window - now;
      var d := RetryAfter(oldest, window, now);
      && 0.0 < r <= window && d >= 1
      && r - 0.001 < d as real
      && d as real <= if r + 0.999 > 1.0 then r + 0.999 else 1.0
  {
  }

  /** Fewer recent times are left later exactly when the oldest of them has expired by then. */
  lemma OldestExpired(times: seq<real>, earlier: real, later: real)
    requires Ascending(times) && earlier <= later && Prune(times, earlier) != []
    ensures |Prune(times, later)| < |Prune(times, earlier)| <==> Prune(times, earlier)[0] <= later
  {
    var n := PruneDrops(times, earlier);
    var m := PruneDrops(times, later);
    assert times[n..][0] == times[n];
  }

  lemma PruneWithin(times: seq<real>, threshold: real, now: real)
    requires UpTo(times, now) && Prune(times, threshold) != []
    ensures |Prune(times, threshold)| <= |times| && threshold < Prune(times, threshold)[0] <= now
  {
    var n := PruneDrops(times, threshold);
    assert times[n..][0] == times[n];
  }

  /** A full window's pruned deque is the pruned log. */
  lemma FullWindow(limit: nat, times: seq<real>, q: seq<real>, expiry: real, threshold: real, now: real)
    requires Tail(times, q, expiry) && expiry <= threshold && |q| <= limit && UpTo(times, now)
    requires |Prune(q, threshold)| >= limit > 0
    ensures Prune(times, threshold) == Prune(q, threshold) && |Prune(q, threshold)| == limit
    ensures threshold < Prune(times, threshold)[0] <= now
  {
    TailPruned(times, q, expiry, threshold);
    PruneWithin(times, threshold, now);
    var n := PruneDrops(q, threshold);
  }

  /** The oldest time in the window, by the key's whole log. */
  function Oldest(c: Config, h: History, call: Call): real {
    var q := Prune(Times(h.log, call.key), call.now - c.window);
    if q == [] then call.now - c.window else q[0]
  }

  /** The delay of a rejection, read off the key's whole log. */
  lemma RejectionByTimes(c: Config, h: History, last: real, call: Call)
    requires Usable(c) && WellFormed(h.table) && Faithful(c, h, call.key, last) && last <= call.now && call.key !in h.evicted
    requires Answered(c, h, call).retry.Some?
    ensures |Prune(Times(h.log, call.key), call.now - c.window)| == c.limit
    ensures Prune(Times(h.log, call.key), call.now - c.window)[0] == Oldest(c, h, call)
    ensures Oldest(c, h, call) <= call.now < Oldest(c, h, call) + c.window
    ensures Answered(c, h, call).retry == Some(RetryAfter(Oldest(c, h, call), c.window, call.now))
  {
    CheckRetry(c, h.table, call.key, call.now);
    FullWindow(c.limit, Times(h.log, call.key), Of(h.table, call.key), last - c.window, call.now - c.window, call.now);
  }

  /** A rejected call, calls of any kind after it, and the same key's next try. */
  ghost predicate Retried(c: Config, h: History, last: real, call: Call, more: seq<Call>, again: Call) {
    && Consistent(c, h, last) && last <= call.now && Clocked(more, call.now)
    && call.key !in h.evicted && Answered(c, h, call).retry.Some?
    && again.key == call.key && LastTime(more, call.now) <= again.now
  }

  /** The end of the wait that a rejection leaves the key with. */
  function Release(c: Config, h: History, call: Call): real { Oldest(c, h, call) + c.window }

  /** No other request of the key was accepted since, and it was not forgotten. */
  predicate Undisturbed(h: History, h': History, key: string) {
    Times(h'.log, key) == Times(h.log, key) && key !in h'.evicted
  }

  /** The next decision, from the key's log alone. */
  lemma LogDecides(c: Config, h: History, last: real, call: Call) returns (accepted: bool)
    requires Consistent(c, h, last) && last <= call.now && call.key !in h.evicted
    ensures accepted == Answered(c, h, call).retry.None?
    ensures Ascending(Times(h.log, call.key)) && (accepted <==> |Prune(Times(h.log, call.key), call.now - c.window)| < c.limit)
  {
    DecidesByLog(c, h, last, call);
    assert Faithful(c, h, call.key, last);
    accepted := Answered(c, h, call).retry.None?;
    UpToLater(Times(h.log, call.key), last, call.now);
    PruneCounts(Times(h.log, call.key), call.now - c.window, call.now);
  }

  lemma DecidedLater(c: Config, h: History, last: real, again: Call, times: seq<real>, earlier: real)
    requires Consistent(c, h, last) && last <= again.now && again.key !in h.evicted && times == Times(h.log, again.key)
    requires |Prune(times, earlier)| == c.limit && earlier <= again.now - c.window
    ensures Answered(c, h, again).retry.None? <==> Prune(times, earlier)[0] <= again.now - c.window
  {
    var accepted := LogDecides(c, h, last, again);
    OldestExpired(times, earlier, again.now - c.window);
  }

  /** Whatever other keys do meanwhile, the next try is accepted exactly when the true wait is over. */
  lemma AcceptedAgain(c: Config, h: History, last: real, call: Call, more: seq<Call>, again: Call)
    requires Retried(c, h, last, call, more, again)
    ensures Consistent(c, Next(c, h, call), call.now)
    ensures
      var h' := Replay(c, Next(c, h, call), call.now, more);
      Undisturbed(h, h', call.key) ==> (Answered(c, h', again).retry.None? <==> Release(c, h, call) <= again.now)
  {
    CallKeeps(c, h, last, call);
    assert Faithful(c, h, call.key, last);
    RejectionByTimes(c, h, last, call);
    var h' := Replay(c, Next(c, h, call), call.now, more);
    if Undisturbed(h, h', call.key) {
      DecidedLater(c, h', LastTime(more, call.now), again, Times(h.log, call.key), call.now - c.window);
    }
  }

  /** A try that comes a millisecond past the announced delay or later is accepted. */
  lemma RetryHonoured(c: Config, h: History, last: real, call: Call, more: seq<Call>, again: Call)
    requires Retried(c, h, last, call, more, again)
    requires call.now + Answered(c, h, call).retry.value as real + 0.001 <= again.now
    ensures Consistent(c, Next(c, h, call), call.now)
    ensures
      var h' := Replay(c, Next(c, h, call), call.now, more);
      Undisturbed(h, h', call.key) ==> Answered(c, h', again).retry.None?
  {
    AcceptedAgain(c, h, last, call, more, again);
    assert Faithful(c, h, call.key, last);
    RejectionByTimes(c, h, last, call);
    RetryBounds(Oldest(c, h, call), c.window, call.now);
  }

  /** The true wait exceeds a whole number of seconds by less than a millisecond, and one second. */
  predicate RoundedAway(r: real) {
    r > 1.0 && 0.0 < r - r.Floor as real < 0.001
  }

  /** A try exactly at the announced delay is accepted unless the wait was rounded away. */
  lemma RetryOnTime(c: Config, h: History, last: real, call: Call, more: seq<Call>, again: Call)
    requires Retried(c, h, last, call, more, again)
    requires again.now == call.now + Answered(c, h, call).retry.value as real
    ensures Consistent(c, Next(c, h, call), call.now)
    ensures
      var h' := Replay(c, Next(c, h, call), call.now, more);
      Undisturbed(h, h', call.key) ==>
        (Answered(c, h', again).retry.None? <==> !RoundedAway(Release(c, h, call) - call.now))
  {
    AcceptedAgain(c, h, last, call, more, again);
    assert Faithful(c, h, call.key, last);
    RejectionByTimes(c, h, last, call);
    DelaySuffices(Oldest(c, h, call), c.window, call.now);
  }

  lemma DelaySuffices(oldest: real, window: real, now: real)
    requires oldest <= now < oldest + window
    ensures oldest + window <= now + RetryAfter(oldest, window, now) as real <==> !RoundedAway(oldest + window - now)
  {
    var r := oldest + window - now;
    FloorOf(r + 0.999, if r - r.Floor as real < 0.001 then r.Floor else r.Floor + 1);
  }

  lemma FloorOf(x: real, n: int)
    requires n as real <= x < n as real + 1.0
    ensures x.Floor == n
  {
  }

  /** Waiting as told and being rejected again: limit 1, a window of 1.0005 seconds. */
  lemma RetryTooEarly()
    ensures
      var c := Config(1, 1.0005, 4096);
      var t := Table(["k"], map["k" := [0.0]]);
      && WellFormed(t) && WellFormed(Check(c, t, "k", 0.0).table)
      && Check(c, t, "k", 0.0).retry == Some(1)
      && Check(c, Check(c, t, "k", 0.0).table, "k", 1.0).retry.Some?
  {
    var c := Config(1, 1.0005, 4096);
    var t := Table(["k"], map["k" := [0.0]]);
    assert Prune([0.0], 0.0 - 1.0005) == [0.0] && Prune([0.0], 1.0 - 1.0005) == [0.0];
    CheckEffect(c, t, "k", 0.0, "k");
    assert (0.0 + 1.0005 - 0.0 + 0.999).Floor == 1;
    CheckEffect(c, Check(c, t, "k", 0.0).table, "k", 1.0, "k");
  }

  lemma {:induction false} KeepingAll(order: seq<string>, keys: set<string>)
    requires forall k :: k in order ==> k in keys
    ensures Keeping(order, keys) == order
  {
    if order != [] {
      KeepingAll(order[1..], keys);
    }
  }

  lemma {:induction false} KeepingWithout(order: seq<string>, keys: set<string>, key: string)
    ensures Without(Keeping(order, keys), key) == Keeping(order, keys - {key})
  {
    if order != [] {
      KeepingWithout(order[1..], keys, key);
      if order[0] in keys {
        assert Keeping(order, keys)[1..] == Keeping(order[1..], keys);
      }
    }
  }

  // ----- The first loop of `_prune_keys`, key by key

  function ExpireOne(t: Table, threshold: real, preserve: string, key: string): Table {
    var q := Prune(Of(t, key), threshold);
    if key == preserve || key !in t.requests then t
    else if q == [] then Remove(t, key)
    else t.(requests := t.requests[key := q])
  }

  /** `u` is on its way from `t` to `goal`: the keys before position `n` are done. */
  ghost predicate Partway(t: Table, u: Table, goal: Table, n: nat)
    requires n <= |t.order|
  {
    && (forall i :: 0 <= i < n ==> SameAt(u, goal, t.order[i]))
    && (forall i :: n <= i < |t.order| ==> SameAt(u, t, t.order[i]))
    && (forall k :: k in u.requests ==> k in t.requests)
  }

  ghost predicate Expiring(t: Table, u: Table, threshold: real, preserve: string, n: nat)
    requires n <= |t.order|
  {
    u.order == Keeping(t.order, u.requests.Keys) && Partway(t, u, Expire(t, threshold, preserve), n)
  }

  predicate SameAt(u: Table, v: Table, k: string) {
    (k in u.requests <==> k in v.requests) && Of(u, k) == Of(v, k)
  }

  lemma ExpireOneAt(t: Table, u: Table, threshold: real, preserve: string, key: string)
    requires SameAt(u, t, key)
    ensures SameAt(ExpireOne(u, threshold, preserve, key), Expire(t, threshold, preserve), key)
  {
  }

  lemma ExpireOneOnly(u: Table, threshold: real, preserve: string, key: string)
    ensures ChangesOnly(u, ExpireOne(u, threshold, preserve, key), key)
  {
  }

  ghost predicate ChangesOnly(u: Table, v: Table, key: string) {
    && (forall k :: k != key ==> SameAt(u, v, k))
    && (forall k :: k in v.requests ==> k in u.requests)
  }

  lemma PartwayStep(t: Table, u: Table, v: Table, goal: Table, n: nat)
    requires Distinct(t.order) && n < |t.order| && Partway(t, u, goal, n)
    requires ChangesOnly(u, v, t.order[n]) && SameAt(v, goal, t.order[n])
    ensures Partway(t, v, goal, n + 1)
  {
    forall i | 0 <= i < |t.order| && i != n
      ensures SameAt(u, v, t.order[i])
    {
      assert t.order[i] != t.order[n];
    }
  }

  lemma ExpireOneOrder(order: seq<string>, u: Table, threshold: real, preserve: string, key: string)
    requires u.order == Keeping(order, u.requests.Keys)
    ensures
      var v := ExpireOne(u, threshold, preserve, key);
      v.order == Keeping(order, v.requests.Keys)
  {
    KeepingWithout(order, u.requests.Keys, key);
    var v := ExpireOne(u, threshold, preserve, key);
    assert v.requests.Keys == u.requests.Keys || v.requests.Keys == u.requests.Keys - {key};
  }

  lemma ExpiringStep(t: Table, u: Table, threshold: real, preserve: string, n: nat)
    requires WellFormed(t) && n < |t.order| && Expiring(t, u, threshold, preserve, n)
    ensures Expiring(t, ExpireOne(u, threshold, preserve, t.order[n]), threshold, preserve, n + 1)
  {
    var key := t.order[n];
    ExpireOneOnly(u, threshold, preserve, key);
    ExpireOneAt(t, u, threshold, preserve, key);
    ExpireOneOrder(t.order, u, threshold, preserve, key);
    PartwayStep(t, u, ExpireOne(u, threshold, preserve, key), Expire(t, threshold, preserve), n);
  }

  lemma ExpiringDone(t: Table, u: Table, threshold: real, preserve: string)
    requires WellFormed(t) && Expiring(t, u, threshold, preserve, |t.order|)
    ensures u == Expire(t, threshold, preserve)
  {
    var goal := Expire(t, threshold, preserve);
    assert forall k :: k in t.requests ==> SameAt(u, goal, k);
    assert u.requests == goal.requests;
  }

  /** The table after the loop has seen `keys`. */
  function ExpireKeys(t: Table, threshold: real, preserve: string, keys: seq<string>): Table {
    if keys == [] then t
    else ExpireOne(ExpireKeys(t, threshold, preserve, keys[..|keys| - 1]), threshold, preserve, keys[|keys| - 1])
  }

  lemma ExpireKeysStep(t: Table, threshold: real, preserve: string, keys: seq<string>, i: nat)
    requires i < |keys|
    ensures ExpireKeys(t, threshold, preserve, keys[..i + 1])
         == ExpireOne(ExpireKeys(t, threshold, preserve, keys[..i]), threshold, preserve, keys[i])
  {
    assert keys[..i + 1][..i] == keys[..i];
  }

  lemma {:induction false} ExpireFirst(t: Table, threshold: real, preserve: string, n: nat) returns (u: Table)
    requires WellFormed(t) && n <= |t.order|
    ensures u == ExpireKeys(t, threshold, preserve, t.order[..n]) && Expiring(t, u, threshold, preserve, n)
  {
    if n == 0 {
      KeepingAll(t.order, t.requests.Keys);
      u := t;
    } else {
      var before := ExpireFirst(t, threshold, preserve, n - 1);
      ExpireKeysStep(t, threshold, preserve, t.order, n - 1);
      ExpiringStep(t, before, threshold, preserve, n - 1);
      u := ExpireOne(before, threshold, preserve, t.order[n - 1]);
    }
  }

  /** Going through the keys one by one is the same as expiring them all at once. */
  lemma ExpireAll(t: Table, threshold: real, preserve: string)
    requires WellFormed(t)
    ensures ExpireKeys(t, threshold, preserve, t.order) == Expire(t, threshold, preserve)
  {
    var u := ExpireFirst(t, threshold, preserve, |t.order|);
    assert t.order[..|t.order|] == t.order;
    ExpiringDone(t, u, threshold, preserve);
  }
}
