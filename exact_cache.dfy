/** Layer 0: exact-match answers kept in Redis under a key derived from the
    MD5 digest of the query. The Redis server is the `store` map plus an
    `online` flag; a call that reaches an unreachable server raises, and
    none of this layer's operations catches that. */
module ExactLayer {
  import opened Common

  /** The namespace of this layer's keys inside the shared Redis database. */
  const Prefix := "exact_cache:"

  /** A value stored with SETEX and the expiry it was given, in seconds. */
  datatype Entry = Entry(value: string, ttl: int)

  /** The keys `scan_iter("exact_cache:*")` enumerates. */
  predicate IsCacheKey(key: string) {
    |key| >= |Prefix| && key[..|Prefix|] == Prefix
  }

  /** `_generate_key`: the prefix followed by the digest of the query. */
  function CacheKey(digest: string -> string, query: string): (key: string)
    ensures IsCacheKey(key)
    ensures key[|Prefix|..] == digest(query)
  {
    Prefix + digest(query)
  }

  /** Queries with different digests never share a key, so with a collision-
      free digest distinct queries never overwrite each other's answer. */
  lemma KeysSeparate(digest: string -> string, q1: string, q2: string)
    requires digest(q1) != digest(q2)
    ensures CacheKey(digest, q1) != CacheKey(digest, q2)
  {
    assert CacheKey(digest, q1)[|Prefix|..] != CacheKey(digest, q2)[|Prefix|..];
  }

  /** `ttl or settings.cache_ttl`: a missing or zero expiry takes the default. */
  function EffectiveTtl(ttl: Option<int>, default: int): (t: int)
    ensures ttl.Some? && ttl.value != 0 ==> t == ttl.value
    ensures ttl.None? || ttl.value == 0 ==> t == default
  {
    if ttl.Some? && ttl.value != 0 then ttl.value else default
  }

  /** `redis.get(key)` followed by `if cached_value:`: an empty string
      reads as a miss. */
  function Lookup(data: map<string, Entry>, key: string): (r: Option<string>)
    ensures r.Some? <==> key in data && data[key].value != ""
    ensures r.Some? ==> r.value == data[key].value
  {
    if key in data && data[key].value != "" then Some(data[key].value) else None
  }

  /** The database after the prefixed keys have all been deleted. */
  function Cleared(data: map<string, Entry>): (r: map<string, Entry>)
    ensures forall k :: k in r <==> k in data && !IsCacheKey(k)
    ensures forall k :: k in r ==> r[k] == data[k]
  {
    map k | k in data && !IsCacheKey(k) :: data[k]
  }

  /** The database with the given keys deleted. */
  function Without(data: map<string, Entry>, gone: set<string>): map<string, Entry> {
    map k | k in data && k !in gone :: data[k]
  }

  lemma WithoutOneMore(data: map<string, Entry>, gone: set<string>, k: string)
    ensures Without(data, gone + {k}) == Without(data, gone) - {k}
  {
  }

  /** After SETEX the key answers with the value written, unless it is "". */
  lemma WriteThenLookup(data: map<string, Entry>, key: string, value: string, ttl: int)
    ensures Lookup(data[key := Entry(value, ttl)], key) == if value == "" then None else Some(value)
  {
  }

  /** SETEX and DEL touch one key: every other key answers as before. */
  lemma WriteKeepsOthers(data: map<string, Entry>, key: string, other: string, e: Entry)
    requires other != key
    ensures Lookup(data[key := e], other) == Lookup(data, other)
    ensures Lookup(data - {key}, other) == Lookup(data, other)
  {
  }

  /** After clearing, every query misses and keys outside the namespace
      keep their values. */
  lemma ClearedMisses(data: map<string, Entry>, digest: string -> string, query: string)
    ensures Lookup(Cleared(data), CacheKey(digest, query)) == None
  {
  }

  class ExactCache {
    const digest: string -> string
    const cacheTtl: int
    var store: map<string, Entry>
    var online: bool

    /** `ExactCache()`: a client of the given Redis server. */
    constructor(digest: string -> string, cacheTtl: int, store: map<string, Entry>, online: bool)
      ensures this.digest == digest && this.cacheTtl == cacheTtl
      ensures this.store == store && this.online == online
    {
      this.digest := digest;
      this.cacheTtl := cacheTtl;
      this.store := store;
      this.online := online;
    }

    /** `get`: the cached answer for exactly this query, if a non-empty one
        is stored. */
    function Get(query: string): (r: Result<Option<string>>)
      reads this
      ensures r.Err? <==> !online
      ensures r.Err? ==> r.error == StoreUnavailable
      ensures r.Ok? ==> r.value == Lookup(store, CacheKey(digest, query))
    {
      if !online then Err(StoreUnavailable) else Ok(Lookup(store, CacheKey(digest, query)))
    }

    /** `set`: SETEX of the answer under the query's key. Redis refuses a
        non-positive expiry, which `ttl or cache_ttl` lets through when the
        configured default is not positive. */
    method Set(query: string, response: string, ttl: Option<int>) returns (r: Outcome)
      modifies this`store
      ensures var t := EffectiveTtl(ttl, cacheTtl);
        if !online then r == Fail(StoreUnavailable) && store == old(store)
        else if t <= 0 then r == Fail(InvalidExpireTime(t)) && store == old(store)
        else r == Pass && store == old(store)[CacheKey(digest, query) := Entry(response, t)]
      ensures forall q :: digest(q) != digest(query) ==>
        Lookup(store, CacheKey(digest, q)) == Lookup(old(store), CacheKey(digest, q))
    {
      var t := EffectiveTtl(ttl, cacheTtl);
      if !online {
        return Fail(StoreUnavailable);
      }
      if t <= 0 {
        return Fail(InvalidExpireTime(t));
      }
      forall q | digest(q) != digest(query)
        ensures Lookup(store[CacheKey(digest, query) := Entry(response, t)], CacheKey(digest, q)) == Lookup(store, CacheKey(digest, q))
      {
        KeysSeparate(digest, q, query);
        WriteKeepsOthers(store, CacheKey(digest, query), CacheKey(digest, q), Entry(response, t));
      }
      store := store[CacheKey(digest, query) := Entry(response, t)];
      r := Pass;
    }

    /** `delete`: removes the query's key, present or not. */
    method Delete(query: string) returns (r: Outcome)
      modifies this`store
      ensures !online ==> r == Fail(StoreUnavailable) && store == old(store)
      ensures online ==> r == Pass && store == old(store) - {CacheKey(digest, query)}
    {
      if !online {
        return Fail(StoreUnavailable);
      }
      store := store - {CacheKey(digest, query)};
      r := Pass;
    }

    /** `clear_all`: deletes every key the namespace scan yields, one at a
        time, counting them; keys of other namespaces stay. */
    method ClearAll() returns (r: Outcome, count: nat)
      modifies this`store
      ensures !online ==> r == Fail(StoreUnavailable) && store == old(store) && count == 0
      ensures online ==> r == Pass && store == Cleared(old(store))
      ensures online ==> count == |set k | k in old(store) && IsCacheKey(k)|
    {
      if !online {
        return Fail(StoreUnavailable), 0;
      }
      var pending := set k | k in store && IsCacheKey(k);
      ghost var all := pending;
      count := 0;
      while pending != {}
        invariant pending <= all
        invariant count == |all| - |pending|
        invariant store == Without(old(store), all - pending)
        decreases pending
      {
        var k :| k in pending;
        WithoutOneMore(old(store), all - pending, k);
        assert all - (pending - {k}) == (all - pending) + {k};
        store := store - {k};
        pending := pending - {k};
        count := count + 1;
      }
      assert all - pending == all;
      assert Without(old(store), all) == Cleared(old(store));
      r := Pass;
    }
  }
}
