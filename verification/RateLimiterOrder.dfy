/**
  Which keys the limiter forgets when there are too many: the oldest, and no more than it must.
  A key is as old as its present deque.
 */
module RateLimiterOrder {
  import opened RateLimiter

  /** One key stands somewhere before the other. */
  predicate Before(order: seq<string>, x: string, y: string) {
    exists i, j :: 0 <= i < j < |order| && order[i] == x && order[j] == y
  }

  lemma BeforeCons(first: string, rest: seq<string>, x: string, y: string)
    ensures Before([first] + rest, x, y) <==> Before(rest, x, y) || (x == first && y in rest)
  {
    var order := [first] + rest;
    if Before(order, x, y) {
      var i, j :| 0 <= i < j < |order| && order[i] == x && order[j] == y;
      assert order[j] == rest[j - 1];
      if i > 0 {
        assert rest[i - 1] == x && rest[j - 1] == y;
      }
    }
    if Before(rest, x, y) {
      var i, j :| 0 <= i < j < |rest| && rest[i] == x && rest[j] == y;
      assert order[i + 1] == x && order[j + 1] == y;
    }
    if x == first && y in rest {
      var j :| 0 <= j < |rest| && rest[j] == y;
      assert order[0] == x && order[j + 1] == y;
    }
  }

  lemma SplitFirst(order: seq<string>)
    requires order != []
    ensures [order[0]] + order[1..] == order
  {
  }

  /** Dropping keys does not change the order of the others. */
  lemma {:induction false} KeepingBefore(order: seq<string>, keys: set<string>, x: string, y: string)
    requires Distinct(order) && x in keys && y in keys
    ensures Before(Keeping(order, keys), x, y) <==> Before(order, x, y)
  {
    if order != [] {
      var rest := order[1..];
      SplitFirst(order);
      KeepingBefore(rest, keys, x, y);
      KeepingKeeps(rest, keys);
      BeforeCons(order[0], rest, x, y);
      if order[0] in keys {
        BeforeCons(order[0], Keeping(rest, keys), x, y);
      }
    }
  }

  lemma {:induction false} WithoutBefore(order: seq<string>, key: string, x: string, y: string)
    requires Distinct(order) && x != key && y != key
    ensures Before(Without(order, key), x, y) <==> Before(order, x, y)
  {
    if order != [] {
      var rest := order[1..];
      SplitFirst(order);
      WithoutBefore(rest, key, x, y);
      WithoutShrinks(rest, key);
      BeforeCons(order[0], rest, x, y);
      if order[0] != key {
        BeforeCons(order[0], Without(rest, key), x, y);
      }
    }
  }

  /** The key that goes first stands before all others but the current one. */
  lemma VictimFirst(order: seq<string>, preserve: string, k: string)
    requires |order| >= 2 && Distinct(order) && k in order && k != preserve && k != Victim(order, preserve)
    ensures Before(order, Victim(order, preserve), k)
  {
    var j :| 0 <= j < |order| && order[j] == k;
    var i := if order[0] != preserve then 0 else 1;
    assert order[i] == Victim(order, preserve) && i < j;
  }

  lemma {:induction false} EvictOldest(t: Table, preserve: string, maxKeys: nat, v: string, k: string)
    requires WellFormed(t) && maxKeys > 0
    requires v in Victims(t, preserve, maxKeys) && k in Evict(t, preserve, maxKeys).order && k != preserve
    ensures Before(t.order, v, k)
    decreases |t.order|
  {
    var victim := Victim(t.order, preserve);
    RemoveKeepsForm(t, victim);
    EvictKeys(Remove(t, victim), preserve, maxKeys);
    WithoutShrinks(t.order, victim);
    if v == victim {
      VictimFirst(t.order, preserve, k);
    } else {
      EvictOldest(Remove(t, victim), preserve, maxKeys, v, k);
      WithoutBefore(t.order, victim, v, k);
    }
  }

  /** What is left are the keys that were not forgotten, in their order, and exactly as many as there may be. */
  lemma {:induction false} EvictKeys(t: Table, preserve: string, maxKeys: nat)
    requires WellFormed(t) && maxKeys > 0
    ensures forall k :: k in Evict(t, preserve, maxKeys).order <==> k in t.order && k !in Victims(t, preserve, maxKeys)
    ensures |t.order| > maxKeys ==> |Evict(t, preserve, maxKeys).order| == maxKeys
    ensures |t.order| <= maxKeys ==> Victims(t, preserve, maxKeys) == {} && Evict(t, preserve, maxKeys) == t
    decreases |t.order|
  {
    if |t.order| > maxKeys {
      var victim := Victim(t.order, preserve);
      RemoveKeepsForm(t, victim);
      WithoutShrinks(t.order, victim);
      EvictKeys(Remove(t, victim), preserve, maxKeys);
    }
  }

  lemma {:induction false} EvictBefore(t: Table, preserve: string, maxKeys: nat, x: string, y: string)
    requires WellFormed(t) && maxKeys > 0
    requires x in Evict(t, preserve, maxKeys).order && y in Evict(t, preserve, maxKeys).order
    ensures Before(Evict(t, preserve, maxKeys).order, x, y) <==> Before(t.order, x, y)
    decreases |t.order|
  {
    if |t.order| > maxKeys {
      var victim := Victim(t.order, preserve);
      RemoveKeepsForm(t, victim);
      EvictKeys(Remove(t, victim), preserve, maxKeys);
      WithoutShrinks(t.order, victim);
      EvictBefore(Remove(t, victim), preserve, maxKeys, x, y);
      WithoutBefore(t.order, victim, x, y);
    }
  }

  // ----- One call

  /** The keys when the request has been entered: a new key stands last. */
  function Entered(order: seq<string>, key: string): seq<string> {
    if key in order then order else order + [key]
  }

  /** After the expired keys are gone. */
  lemma ExpireOrder(t: Table, threshold: real, preserve: string, x: string, y: string)
    requires WellFormed(t) && x in Expire(t, threshold, preserve).order && y in Expire(t, threshold, preserve).order
    ensures x in t.order && y in t.order && (Before(Expire(t, threshold, preserve).order, x, y) <==> Before(t.order, x, y))
  {
    var keys := Expire(t, threshold, preserve).requests.Keys;
    KeepingKeeps(t.order, keys);
    KeepingBefore(t.order, keys, x, y);
  }

  ghost predicate SameOrder(before: seq<string>, after: seq<string>) {
    forall x, y :: x in after && y in after ==> (Before(after, x, y) <==> Before(before, x, y))
  }

  ghost predicate OldestGone(before: seq<string>, after: seq<string>, gone: set<string>, key: string) {
    forall v, k :: v in gone && k in after && k != key ==> Before(before, v, k)
  }

  lemma PrunedOrder(t: Table, threshold: real, key: string, maxKeys: nat)
    requires WellFormed(t) && WellFormed(Expire(t, threshold, key)) && maxKeys > 0
    ensures SameOrder(t.order, Evict(Expire(t, threshold, key), key, maxKeys).order)
  {
    var expired := Expire(t, threshold, key);
    var after := Evict(expired, key, maxKeys).order;
    EvictKeys(expired, key, maxKeys);
    forall x, y | x in after && y in after
      ensures Before(after, x, y) <==> Before(t.order, x, y)
    {
      EvictBefore(expired, key, maxKeys, x, y);
      ExpireOrder(t, threshold, key, x, y);
    }
  }

  lemma PrunedOldest(t: Table, threshold: real, key: string, maxKeys: nat)
    requires WellFormed(t) && WellFormed(Expire(t, threshold, key)) && maxKeys > 0
    ensures
      var expired := Expire(t, threshold, key);
      OldestGone(t.order, Evict(expired, key, maxKeys).order, Victims(expired, key, maxKeys), key)
  {
    var expired := Expire(t, threshold, key);
    EvictKeys(expired, key, maxKeys);
    VictimsHeld(expired, key, maxKeys);
    forall v, k | v in Victims(expired, key, maxKeys) && k in Evict(expired, key, maxKeys).order && k != key
      ensures Before(t.order, v, k)
    {
      EvictOldest(expired, key, maxKeys, v, k);
      ExpireOrder(t, threshold, key, v, k);
    }
  }

  lemma PrunedCount(t: Table, threshold: real, key: string, maxKeys: nat)
    requires WellFormed(t) && WellFormed(Expire(t, threshold, key)) && maxKeys > 0
    ensures
      var expired := Expire(t, threshold, key);
      Victims(expired, key, maxKeys) != {} ==> |Evict(expired, key, maxKeys).order| == maxKeys
  {
    EvictKeys(Expire(t, threshold, key), key, maxKeys);
  }

  /** What may be said of the keys of an answer. */
  ghost predicate Ordered(c: Config, before: seq<string>, a: Answer, key: string) {
    && SameOrder(before, a.table.order) && OldestGone(before, a.table.order, a.evicted, key)
    && (a.evicted != {} ==> |a.table.order| == c.maxKeys)
  }

  lemma SettleOrder(c: Config, t: Table, key: string, now: real)
    requires Usable(c) && WellFormed(t)
    ensures Ordered(c, t.order, Settle(c, t, key, now), key)
  {
    if |t.order| > c.maxKeys {
      var threshold := now - c.window;
      ExpireKeepsForm(t, threshold, key);
      PrunedOrder(t, threshold, key, c.maxKeys);
      PrunedOldest(t, threshold, key, c.maxKeys);
      PrunedCount(t, threshold, key, c.maxKeys);
    }
  }

  lemma {:induction false} VictimsHeld(t: Table, preserve: string, maxKeys: nat)
    requires WellFormed(t) && maxKeys > 0
    ensures forall v :: v in Victims(t, preserve, maxKeys) ==> v in t.order
    decreases |t.order|
  {
    if |t.order| > maxKeys {
      var victim := Victim(t.order, preserve);
      RemoveKeepsForm(t, victim);
      WithoutShrinks(t.order, victim);
      VictimsHeld(Remove(t, victim), preserve, maxKeys);
    }
  }

  lemma PutEnters(t: Table, key: string, q: seq<real>)
    requires WellFormed(t)
    ensures WellFormed(Put(t, key, q)) && Put(t, key, q).order == Entered(t.order, key)
  {
    PutKeepsForm(t, key, q);
  }

  lemma NothingForgotten(c: Config, order: seq<string>, a: Answer, key: string)
    requires a.table.order == order && a.evicted == {}
    ensures Ordered(c, order, a, key)
  {
  }

  /**
    A call forgets live keys oldest first and only down to the bound; it never changes the order
    of the keys it keeps, and a new key is the youngest.
   */
  lemma ForgetsOldestFirst(c: Config, t: Table, key: string, now: real)
    requires Usable(c) && WellFormed(t)
    ensures Ordered(c, Entered(t.order, key), Check(c, t, key, now), key)
  {
    var q := Prune(Of(t, key), now - c.window);
    if |q| >= c.limit {
      PutEnters(t, key, q);
      NothingForgotten(c, Entered(t.order, key), Check(c, t, key, now), key);
    } else {
      PutEnters(t, key, q + [now]);
      SettleOrder(c, Put(t, key, q + [now]), key, now);
    }
  }
}
