/**
 * The rate engine: one counter per subnet key, created at 1 on the first
 * protected request of a window and incremented afterwards; a key trips the
 * limit once its live count is strictly greater than the configured limit.
 */
module RateEngine {
  import opened Base
  import opened TtlCache

  /**
   * What `registerRequest` does to the counter store: `Add(key, 1)`, and
   * `IncrementUint(key, 1)` when the add is refused because a live counter
   * exists. An increment that is refused as well leaves the store as it is.
   */
  function Register(c: Cache<Uint>, key: string, now: nat): (r: Cache<Uint>)
    ensures r.defaultExpiration == c.defaultExpiration
    ensures Get(c, key, now).None? ==> Get(r, key, now) == Some(1) && r.items[key].expiration == ExpiryAt(c, now)
    ensures Get(c, key, now).Some? ==>
              Get(r, key, now) == Some(UintAdd(Get(c, key, now).value, 1))
              && r.items[key].expiration == c.items[key].expiration
    ensures forall k, t: nat :: k != key ==> Get(r, k, t) == Get(c, k, t)
  {
    match Add(c, key, 1, now)
    case Some(added) => added
    case None =>
      match IncrementUint(c, key, 1, now)
      case Some(incremented) => incremented
      case None => c
  }

  /** What `trippedRateLimit` answers: an absent or expired counter never trips. */
  predicate Tripped(c: Cache<Uint>, key: string, now: nat, limit: Uint)
  {
    match Get(c, key, now)
    case None => false
    case Some(count) => count > limit
  }

  /** The store after registering one request for `key` at each of `times`, in order. */
  function RegisterAll(c: Cache<Uint>, key: string, times: seq<nat>): Cache<Uint>
  {
    if times == [] then c else Register(RegisterAll(c, key, times[..|times| - 1]), key, times[|times| - 1])
  }

  /** Request times that stay inside the window opened by the first of them. */
  predicate WithinWindow(c: Cache<Uint>, times: seq<nat>)
  {
    && |times| > 0
    && (forall i, j :: 0 <= i < j < |times| ==> times[i] <= times[j])
    && (c.defaultExpiration > 0 ==> forall i :: 0 <= i < |times| ==> times[i] <= times[0] + c.defaultExpiration)
  }

  /**
   * Counting: when `key` has no live counter at the first request, `n`
   * requests inside the window leave the count at exactly `n`, with the
   * expiration set by the first of them.
   */
  lemma {:induction false} CountsRequests(c: Cache<Uint>, key: string, times: seq<nat>)
    requires WithinWindow(c, times) && Get(c, key, times[0]).None?
    requires |times| < UintLimit
    ensures key in RegisterAll(c, key, times).items
    ensures RegisterAll(c, key, times).items[key] == Entry(|times|, ExpiryAt(c, times[0]))
    ensures RegisterAll(c, key, times).defaultExpiration == c.defaultExpiration
  {
    var n := |times|;
    if n > 1 {
      var init := times[..n - 1];
      assert WithinWindow(c, init);
      assert init[0] == times[0];
      CountsRequests(c, key, init);
      var prev := RegisterAll(c, key, init);
      assert !Expired(prev.items[key], times[n - 1]);
      assert Get(prev, key, times[n - 1]) == Some(n - 1);
    }
  }

  /**
   * The limit is strict: inside one window, `limit` requests do not trip it
   * and request `limit + 1` does.
   */
  lemma RateLimitBoundary(c: Cache<Uint>, key: string, times: seq<nat>, limit: Uint)
    requires WithinWindow(c, times) && Get(c, key, times[0]).None?
    requires |times| < UintLimit
    ensures Tripped(RegisterAll(c, key, times), key, times[|times| - 1], limit) <==> |times| > limit
  {
    CountsRequests(c, key, times);
    var r := RegisterAll(c, key, times);
    assert !Expired(r.items[key], times[|times| - 1]);
  }

  /** A counter that has expired starts over at 1, as if the key had never been seen. */
  lemma ExpiredCounterRestarts(c: Cache<Uint>, key: string, now: nat)
    requires key in c.items && Expired(c.items[key], now)
    ensures Get(Register(c, key, now), key, now) == Some(1)
    ensures !Tripped(Register(c, key, now), key, now, 1)
  {
  }
}
