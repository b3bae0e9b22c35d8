/** The response cache (`utils/cache.ts`): a map from key to (data, expiry), expired lazily on
    `get` and swept by `cleanup`. The clock reading `Date.now()` is a parameter `now`. */
module TtlCache {
  import opened Optional

  /** What `get` hands back: `null`, or the stored value (which may itself be `null`). */
  datatype Nullable<T> = Null | NonNull(value: T)

  /** How the getter's promise settles: with a value, or rejected with an error. */
  datatype Settled<T, E> = Resolved(value: Nullable<T>) | Rejected(error: E)

  /** The map after `get(key)` at `now`: a stale entry for `key` is gone, nothing else changes. */
  function AfterLookup<T>(m: map<string, Entry<T>>, key: string, now: int): (r: map<string, Entry<T>>)
    ensures key in m && Expired(m[key], now) ==> r == m - {key}
    ensures !(key in m && Expired(m[key], now)) ==> r == m
  {
    if key in m && Expired(m[key], now) then m - {key} else m
  }

  /** `CacheEntry`: the stored data and the time after which it is stale. */
  datatype Entry<T> = Entry(data: Nullable<T>, expiresAt: int)

  /** The default time to live, five minutes in milliseconds. */
  const DefaultTtl: int := 5 * 60 * 1000

  /** `options.ttl || this.defaultTTL`: an absent or zero ttl falls back to the default. */
  function EffectiveTtl(ttl: Option<int>): (r: int)
    ensures ttl.None? || ttl.value == 0 ==> r == 300000
    ensures ttl.Some? && ttl.value != 0 ==> r == ttl.value
    ensures r != 0
  {
    if ttl.Some? && ttl.value != 0 then ttl.value else DefaultTtl
  }

  /** An entry is stale once the clock has passed its expiry; at the expiry itself it is not. */
  predicate Expired<T>(e: Entry<T>, now: int) {
    now > e.expiresAt
  }

  /** The entries of `m` that are not stale at `now`. */
  function Live<T>(m: map<string, Entry<T>>, now: int): (r: map<string, Entry<T>>)
    ensures forall k :: k in r <==> k in m && !Expired(m[k], now)
    ensures forall k :: k in r ==> r[k] == m[k]
  {
    map k | k in m && !Expired(m[k], now) :: m[k]
  }

  /** Sweeping twice at the same time removes nothing more, and a later sweep removes at least
      as much as an earlier one. */
  lemma LiveMonotone<T>(m: map<string, Entry<T>>, now: int, later: int)
    requires now <= later
    ensures Live(Live(m, now), later) == Live(m, later)
    ensures Live(Live(m, now), now) == Live(m, now)
    ensures Live(m, later).Keys <= Live(m, now).Keys
  {
  }

  class Cache<T> {
    /** The private `Map` of the source. */
    var entries: map<string, Entry<T>>

    constructor ()
      ensures entries == map[]
    {
      entries := map[];
    }

    /** `set(key, value, { ttl })` at time `now`: the entry for `key` is replaced, the others kept. */
    method Set(key: string, value: Nullable<T>, ttl: Option<int>, now: int)
      modifies this
      ensures entries == old(entries)[key := Entry(value, now + EffectiveTtl(ttl))]
      ensures forall k :: k != key && k in old(entries) ==> k in entries && entries[k] == old(entries)[k]
    {
      entries := entries[key := Entry(value, now + EffectiveTtl(ttl))];
    }

    /** `get(key)` at time `now`: absent and stale keys read as `null`, and a stale entry is
        deleted on the way; a fresh entry is returned with the map unchanged. */
    method Get(key: string, now: int) returns (r: Nullable<T>)
      modifies this
      ensures key !in old(entries) ==> r == Null && entries == old(entries)
      ensures key in old(entries) && Expired(old(entries)[key], now) ==>
                r == Null && entries == old(entries) - {key}
      ensures key in old(entries) && !Expired(old(entries)[key], now) ==>
                r == old(entries)[key].data && entries == old(entries)
    {
      if key !in entries {
        return Null;
      }
      var entry := entries[key];
      if now > entry.expiresAt {
        entries := entries - {key};
        return Null;
      }
      r := entry.data;
    }

    /** `getOrSet(key, getter, { ttl })`: `now` is the clock when the lookup runs and `later`
        the clock when the fetched value is stored, after the getter's promise settles. A hit
        (a fresh, non-null value) is returned without calling the getter; otherwise the getter
        is called once. A resolved value is stored and returned; a rejection is passed on and
        nothing is stored, though the lookup has already dropped a stale entry. */
    method GetOrSet<E>(key: string, getter: () -> Settled<T, E>, ttl: Option<int>, now: int, later: int)
      returns (r: Settled<T, E>, ghost getterCalled: bool)
      modifies this
      ensures var hit := key in old(entries) && !Expired(old(entries)[key], now) && old(entries)[key].data.NonNull?;
              && getterCalled == !hit
              && (hit ==> r == Resolved(old(entries)[key].data) && entries == old(entries))
              && (!hit ==> r == getter())
              && (!hit && r.Resolved? ==> entries == old(entries)[key := Entry(r.value, later + EffectiveTtl(ttl))])
              && (!hit && r.Rejected? ==> entries == AfterLookup(old(entries), key, now))
    {
      var cached := Get(key, now);
      if cached != Null {
        return Resolved(cached), false;
      }
      r := getter();
      getterCalled := true;
      if r.Rejected? {
        return;
      }
      Set(key, r.value, ttl, later);
    }

    /** `delete(key)`: only `key` goes. */
    method Delete(key: string)
      modifies this
      ensures entries == old(entries) - {key}
      ensures forall k :: k != key && k in old(entries) ==> k in entries && entries[k] == old(entries)[k]
    {
      entries := entries - {key};
    }

    /** `clear()`. */
    method Clear()
      modifies this
      ensures entries == map[]
    {
      entries := map[];
    }

    /** `cleanup()` at time `now`: walks every entry and deletes the stale ones. */
    method Cleanup(now: int)
      modifies this
      ensures entries == Live(old(entries), now)
    {
      var pending := entries.Keys;
      while pending != {}
        invariant pending <= old(entries).Keys
        invariant entries.Keys <= old(entries).Keys
        invariant forall k :: k in pending ==> k in entries && entries[k] == old(entries)[k]
        invariant forall k :: k in old(entries) && k !in pending ==>
                    (k in entries <==> !Expired(old(entries)[k], now))
        invariant forall k :: k in entries ==> entries[k] == old(entries)[k]
        decreases pending
      {
        var key :| key in pending;
        var entry := entries[key];
        if now > entry.expiresAt {
          entries := entries - {key};
        }
        pending := pending - {key};
      }
    }
  }

  // ---------------------------------------------------------------------------
  // What callers can rely on

  /** A value set with time to live `ttl` at `t` is read back at any `now` up to and including
      `t + ttl`, and reads as `null` afterwards. */
  method SetThenGet<T>(key: string, value: T, ttl: Option<int>, t: int, now: int) returns (r: Nullable<T>)
    ensures r == if now <= t + EffectiveTtl(ttl) then NonNull(value) else Null
  {
    var c := new Cache<T>();
    c.Set(key, NonNull(value), ttl, t);
    r := c.Get(key, now);
  }

  /** Two sequential `getOrSet` calls for one key with no expiry in between call the getter once,
      and both return the fetched value. */
  method GetOrSetTwice<T, E>(key: string, getter: () -> Settled<T, E>, ttl: Option<int>, t1: int, t2: int, t3: int, t4: int)
    returns (first: Settled<T, E>, second: Settled<T, E>, ghost calls: nat)
    requires getter().Resolved? && getter().value.NonNull?
    requires t1 <= t2 <= t3 <= t4 <= t2 + EffectiveTtl(ttl)
    ensures calls == 1
    ensures first == getter() && second == getter()
  {
    var c := new Cache<T>();
    ghost var called1: bool, called2: bool;
    first, called1 := c.GetOrSet(key, getter, ttl, t1, t2);
    second, called2 := c.GetOrSet(key, getter, ttl, t3, t4);
    calls := (if called1 then 1 else 0) + (if called2 then 1 else 0);
  }

  /** A stored `null` is not a hit: the getter runs again. */
  method StoredNullIsAMiss<T, E>(key: string, getter: () -> Settled<T, E>, t: int) returns (r: Settled<T, E>, ghost getterCalled: bool)
    ensures getterCalled && r == getter()
  {
    var c := new Cache<T>();
    c.Set(key, Null, None, t);
    r, getterCalled := c.GetOrSet(key, getter, None, t, t);
  }

  /** A rejecting getter leaves nothing behind for its key: a stale entry was already dropped by
      the lookup, so the next `get` misses, and the rejection is passed on. */
  method RejectionStoresNothing<T, E>(key: string, value: T, error: E, t: int, now: int) returns (r: Settled<T, E>, next: Nullable<T>)
    requires now > t + DefaultTtl
    ensures r == Rejected(error) && next == Null
  {
    var c := new Cache<T>();
    c.Set(key, NonNull(value), None, t);
    ghost var called: bool;
    r, called := c.GetOrSet(key, () => Rejected(error), None, now, now);
    next := c.Get(key, now);
  }

  /** After `cleanup(now)` no lookup at `now` finds a stale entry, and every fresh entry survives. */
  method CleanupThenGet<T>(c: Cache<T>, key: string, now: int) returns (r: Nullable<T>)
    modifies c
    ensures r == if key in old(c.entries) && !Expired(old(c.entries)[key], now) then old(c.entries)[key].data else Null
    ensures c.entries == Live(old(c.entries), now)
  {
    c.Cleanup(now);
    r := c.Get(key, now);
  }
}
