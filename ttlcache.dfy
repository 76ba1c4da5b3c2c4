/**
 * The expiring key/value store the middleware keeps three instances of
 * (request counts, bot verdicts, solved challenges), with an explicit clock.
 * An entry's expiration is an absolute time, 0 meaning "never"; an entry is
 * expired once the clock is strictly past it, and an expired entry behaves
 * as if it were absent.
 */
module TtlCache {
  import opened Base

  datatype Entry<V> = Entry(value: V, expiration: int)

  /** A store with its default lifetime (a lifetime of 0 or less: entries never expire). */
  datatype Cache<V> = Cache(defaultExpiration: int, items: map<string, Entry<V>>)

  /** `cache.New`: a store in which nothing is live, at any time, whose writes use the given lifetime. */
  function New<V>(defaultExpiration: int): (c: Cache<V>)
    ensures c.defaultExpiration == defaultExpiration
    ensures forall k, t: nat :: Get(c, k, t).None?
  {
    Cache(defaultExpiration, map[])
  }

  predicate Expired<V>(e: Entry<V>, now: nat)
  {
    e.expiration > 0 && now > e.expiration
  }

  /** The expiration an entry written at `now` with the default lifetime gets. */
  function ExpiryAt<V>(c: Cache<V>, now: nat): (t: int)
    ensures c.defaultExpiration > 0 ==> t > now
    ensures c.defaultExpiration <= 0 ==> t == 0
  {
    if c.defaultExpiration > 0 then now + c.defaultExpiration else 0
  }

  /** `Get`: the value of a live entry, or nothing. */
  function Get<V>(c: Cache<V>, key: string, now: nat): (r: Option<V>)
    ensures r.Some? <==> key in c.items && !Expired(c.items[key], now)
    ensures r.Some? ==> r.value == c.items[key].value
  {
    if key in c.items && !Expired(c.items[key], now) then Some(c.items[key].value) else None
  }

  /** `Set` with the default lifetime: overwrites the entry and renews its expiration. */
  function Set<V>(c: Cache<V>, key: string, value: V, now: nat): (r: Cache<V>)
    ensures r.defaultExpiration == c.defaultExpiration
    ensures Get(r, key, now) == Some(value)
    ensures r.items[key].expiration == ExpiryAt(c, now)
    ensures forall k, t: nat :: k != key ==> Get(r, k, t) == Get(c, k, t)
  {
    Cache(c.defaultExpiration, c.items[key := Entry(value, ExpiryAt(c, now))])
  }

  /** `Add`: like `Set`, but refused (nothing) while a live entry exists. */
  function Add<V>(c: Cache<V>, key: string, value: V, now: nat): (r: Option<Cache<V>>)
    ensures r.None? <==> Get(c, key, now).Some?
    ensures r.Some? ==> r.value == Set(c, key, value, now)
  {
    if Get(c, key, now).Some? then None else Some(Set(c, key, value, now))
  }

  /**
   * `IncrementUint`: adds `n` to a live entry with `uint` wrap-around and
   * keeps its expiration; refused (nothing) when there is no live entry.
   */
  function IncrementUint(c: Cache<Uint>, key: string, n: Uint, now: nat): (r: Option<Cache<Uint>>)
    ensures r.None? <==> Get(c, key, now).None?
    ensures r.Some? ==> r.value.defaultExpiration == c.defaultExpiration
    ensures r.Some? ==> Get(r.value, key, now) == Some(UintAdd(c.items[key].value, n))
    ensures r.Some? ==> r.value.items[key].expiration == c.items[key].expiration
    ensures r.Some? ==> forall k, t: nat :: k != key ==> Get(r.value, k, t) == Get(c, k, t)
  {
    if Get(c, key, now).None? then None
    else
      var e := c.items[key];
      Some(Cache(c.defaultExpiration, c.items[key := Entry(UintAdd(e.value, n), e.expiration)]))
  }

  /** `Items`: a snapshot of the live entries. */
  function Items<V>(c: Cache<V>, now: nat): (m: map<string, V>)
    ensures forall k :: k in m <==> Get(c, k, now).Some?
    ensures forall k :: k in m ==> Some(m[k]) == Get(c, k, now)
  {
    map k | k in c.items && !Expired(c.items[k], now) :: c.items[k].value
  }

  /** `Flush`: removes every entry. */
  function Flush<V>(c: Cache<V>): (r: Cache<V>)
    ensures r.defaultExpiration == c.defaultExpiration
    ensures forall k, t: nat :: Get(r, k, t).None?
  {
    Cache(c.defaultExpiration, map[])
  }

  /**
   * The store after `Set` of every entry of `m` at `now`: those entries
   * carry `m`'s values and a fresh expiration, every other entry is kept.
   */
  function SetAll<V>(c: Cache<V>, m: map<string, V>, now: nat): (r: Cache<V>)
    ensures r.defaultExpiration == c.defaultExpiration
    ensures r.items.Keys == c.items.Keys + m.Keys
    ensures forall k :: k in m ==> r.items[k] == Entry(m[k], ExpiryAt(c, now))
    ensures forall k :: k in c.items && k !in m ==> r.items[k] == c.items[k]
  {
    Cache(c.defaultExpiration, map k | k in c.items.Keys + m.Keys ::
      if k in m then Entry(m[k], ExpiryAt(c, now)) else c.items[k])
  }

  /**
   * `Set` for every entry of `m`, in the unspecified order Go ranges over a
   * map; the order does not matter since the keys are distinct.
   */
  method SetEach<V>(c: Cache<V>, m: map<string, V>, now: nat) returns (r: Cache<V>)
    ensures r == SetAll(c, m, now)
  {
    var exp := ExpiryAt(c, now);
    var items := c.items;
    var todo := m.Keys;
    while todo != {}
      invariant todo <= m.Keys
      invariant items.Keys == c.items.Keys + (m.Keys - todo)
      invariant forall k :: k in m && k !in todo ==> items[k] == Entry(m[k], exp)
      invariant forall k :: k in c.items && (k !in m || k in todo) ==> items[k] == c.items[k]
      decreases todo
    {
      var k :| k in todo;
      items := items[k := Entry(m[k], exp)];
      todo := todo - {k};
    }
    r := Cache(c.defaultExpiration, items);
    assert r.items == SetAll(c, m, now).items;
  }

  /**
   * Emptying a store and writing `m` back into it at `now` leaves exactly
   * `m` live at `now`.
   */
  lemma ReinstallRestoresItems<V>(c: Cache<V>, m: map<string, V>, now: nat)
    ensures Items(SetAll(Flush(c), m, now), now) == m
  {
    var r := SetAll(Flush(c), m, now);
    forall k | k in m
      ensures Get(r, k, now) == Some(m[k])
    {
      assert r.items[k].expiration == ExpiryAt(c, now);
    }
  }
}
