/**
  The limiter object: its loops over deques and keys, proved against the table functions.
 */
module RequestRateLimiter {
  import opened Wrappers
  import opened RateLimiter

  class Limiter {
    const config: Config
    var order: seq<string>
    var requests: map<string, seq<real>>

    function Value(): Table
      reads this
    {
      Table(order, requests)
    }

    ghost predicate Valid()
      reads this
    {
      Usable(config) && WellFormed(Value())
    }

    constructor (limit: nat, window: real)
      requires limit > 0 && window > 0.0
      ensures Valid() && Value() == Empty && config == Config(limit, window, 4096)
    {
      config := Config(limit, window, 4096);
      order, requests := [], map[];
    }

    /** Construction as the program does it: a limit or window that is not positive is an error. */
    static method Create(limit: int, window: real) returns (limiter: Limiter?)
      ensures limiter != null <==> limit > 0 && window > 0.0
      ensures limiter != null ==> fresh(limiter) && limiter.Valid() && limiter.Value() == Empty && limiter.config == Config(limit, window, 4096)
    {
      limiter := null;
      if limit > 0 && window > 0.0 {
        limiter := new Limiter(limit, window);
      }
    }

    static method PruneDeque(q: seq<real>, threshold: real) returns (r: seq<real>)
      ensures r == Prune(q, threshold)
    {
      r := q;
      while r != [] && r[0] <= threshold
        invariant Prune(r, threshold) == Prune(q, threshold)
        decreases |r|
      {
        r := r[1..];
      }
    }

    /** `_prune_keys`: one pass over a copy of the keys, then eviction from the front. */
    method PruneKeys(now: real, preserve: string)
      requires Valid() && |order| > config.maxKeys
      modifies this
      ensures Valid() && Value() == Settle(config, old(Value()), preserve, now).table
    {
      ghost var before := Value();
      ExpireKeepsForm(before, now - config.window, preserve);
      ExpirePass(now, preserve);
      EvictLoop(preserve);
    }

    /** The second loop of `_prune_keys`: it always finds a key to remove. */
    method EvictLoop(preserve: string)
      requires Valid()
      modifies this
      ensures Valid() && Value() == Evict(old(Value()), preserve, config.maxKeys)
    {
      while |order| > config.maxKeys
        invariant Valid() && Evict(Value(), preserve, config.maxKeys) == Evict(old(Value()), preserve, config.maxKeys)
        decreases |order|
      {
        var removable := Victim(order, preserve);
        RemoveKeepsForm(Value(), removable);
        order := Without(order, removable);
        requests := requests - {removable};
      }
    }

    /** The first loop of `_prune_keys`. */
    method ExpirePass(now: real, preserve: string)
      requires Valid()
      modifies this
      ensures Value() == Expire(old(Value()), now - config.window, preserve)
    {
      ExpireAll(Value(), now - config.window, preserve);
      ExpireLoop(now - config.window, preserve, order);
    }

    method ExpireLoop(threshold: real, preserve: string, keys: seq<string>)
      modifies this
      ensures Value() == ExpireKeys(old(Value()), threshold, preserve, keys)
    {
      for i := 0 to |keys|
        invariant Value() == ExpireKeys(old(Value()), threshold, preserve, keys[..i])
      {
        ExpireKeysStep(old(Value()), threshold, preserve, keys, i);
        ExpireKey(threshold, preserve, keys[i]);
      }
      assert keys[..|keys|] == keys;
    }

    /** One round of that loop: the preserved key is skipped, an emptied key is deleted. */
    method ExpireKey(threshold: real, preserve: string, key: string)
      modifies this
      ensures Value() == ExpireOne(old(Value()), threshold, preserve, key)
    {
      if key != preserve && key in requests {
        var pruned := PruneDeque(requests[key], threshold);
        if pruned == [] {
          order := Without(order, key);
          requests := requests - {key};
        } else {
          requests := requests[key := pruned];
        }
      }
    }

    /** The head of `check`: the key's deque, created if missing, without its expired times. */
    method Recent(key: string, threshold: real) returns (current: seq<real>)
      requires Valid()
      modifies this
      ensures current == Prune(Of(old(Value()), key), threshold)
      ensures Valid() && Value() == Put(old(Value()), key, current)
    {
      current := [];
      if key in requests {
        current := PruneDeque(requests[key], threshold);
      } else {
        order := order + [key];
      }
      requests := requests[key := current];
      PutKeepsForm(old(Value()), key, current);
    }

    method Append(key: string, current: seq<real>, now: real)
      requires Valid() && key in requests
      modifies this
      ensures Valid() && Value() == Put(old(Value()), key, current + [now])
    {
      requests := requests[key := current + [now]];
      PutKeepsForm(old(Value()), key, current + [now]);
    }

    /** `check`. */
    method Check(key: string, now: real) returns (retry: Option<int>)
      requires Valid()
      modifies this
      ensures Valid()
      ensures Value() == RateLimiter.Check(config, old(Value()), key, now).table
      ensures retry == RateLimiter.Check(config, old(Value()), key, now).retry
    {
      var current := Recent(key, now - config.window);
      if |current| >= config.limit {
        return Some(RetryAfter(current[0], config.window, now));
      }
      Append(key, current, now);
      PutTwice(old(Value()), key, current, current + [now]);
      if |order| > config.maxKeys {
        PruneKeys(now, key);
      }
      return None;
    }
  }
}
