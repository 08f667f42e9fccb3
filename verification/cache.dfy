/** The client-side response cache: a map from keys to values with an absolute
    expiry instant each, expired lazily when read, and cleared one key at a time,
    by key prefix or all at once. The clock (`Date.now()`) is the `now` argument. */
module TtlCache {
  import opened Wrappers
  import opened Js

  /** The lifetime of an entry stored without an explicit one: five minutes, in milliseconds. */
  const DEFAULT_TTL: int := 5 * 60 * 1000

  /** A cached value and the instant after which it is no longer served. */
  datatype Entry = Entry(data: Json, expiresAt: int)

  type Store = map<string, Entry>

  /** `key.startsWith(prefix)`: case-sensitive, character by character. */
  predicate StartsWith(key: string, prefix: string) {
    prefix <= key
  }

  /** The store after `set(key, data, ttl)` at time `now`. */
  function Put(m: Store, key: string, data: Json, ttl: int, now: int): Store {
    m[key := Entry(data, now + ttl)]
  }

  /** What `get(key)` returns at time `now`: the value while `now` has not passed its expiry. */
  function Lookup(m: Store, key: string, now: int): Option<Json> {
    if key in m && now <= m[key].expiresAt then Some(m[key].data) else None
  }

  /** The store after `get(key)` at time `now`: an expired entry for `key` is dropped. */
  function AfterGet(m: Store, key: string, now: int): Store {
    if key in m && now > m[key].expiresAt then m - {key} else m
  }

  /** The store after `clearByPrefix(prefix)`. */
  function WithoutPrefix(m: Store, prefix: string): Store {
    map k | k in m && !StartsWith(k, prefix) :: m[k]
  }

  class Cache {
    var entries: Store

    constructor()
      ensures entries == map[]
    {
      entries := map[];
    }

    method Set(key: string, data: Json, now: int, ttl: int := DEFAULT_TTL)
      modifies this
      ensures entries == Put(old(entries), key, data, ttl, now)
    {
      entries := entries[key := Entry(data, now + ttl)];
    }

    method Get(key: string, now: int) returns (r: Option<Json>)
      modifies this
      ensures r == Lookup(old(entries), key, now)
      ensures entries == AfterGet(old(entries), key, now)
    {
      if key !in entries {
        return None;
      }
      var item := entries[key];
      if now > item.expiresAt {
        entries := entries - {key};
        return None;
      }
      return Some(item.data);
    }

    method Delete(key: string)
      modifies this
      ensures entries == old(entries) - {key}
    {
      entries := entries - {key};
    }

    /** Collects the matching keys first, then deletes them one by one. */
    method ClearByPrefix(prefix: string)
      modifies this
      ensures entries == WithoutPrefix(old(entries), prefix)
    {
      var keysToDelete: seq<string> := [];
      var unvisited := entries.Keys;
      while unvisited != {}
        invariant unvisited <= entries.Keys && entries == old(entries)
        invariant forall i :: 0 <= i < |keysToDelete| ==> keysToDelete[i] in entries && StartsWith(keysToDelete[i], prefix)
        invariant forall k :: k in entries && StartsWith(k, prefix) ==> k in unvisited || k in keysToDelete
        decreases unvisited
      {
        var key :| key in unvisited;
        if StartsWith(key, prefix) {
          keysToDelete := keysToDelete + [key];
        }
        unvisited := unvisited - {key};
      }
      var i := 0;
      while i < |keysToDelete|
        invariant 0 <= i <= |keysToDelete|
        invariant forall k :: k in entries <==> k in old(entries) && k !in keysToDelete[..i]
        invariant forall k :: k in entries ==> entries[k] == old(entries)[k]
      {
        entries := entries - {keysToDelete[i]};
        i := i + 1;
        assert keysToDelete[..i] == keysToDelete[..i - 1] + [keysToDelete[i - 1]];
      }
      assert keysToDelete[..i] == keysToDelete;
    }

    method ClearAll()
      modifies this
      ensures entries == map[]
    {
      entries := map[];
    }
  }

  /** A value stored with lifetime `ttl` at time `t` is served at every instant up to
      and including `t + ttl`, and reading it changes nothing. */
  lemma SetThenGetWithinTtl(m: Store, key: string, data: Json, ttl: int, t: int, later: int)
    requires later <= t + ttl
    ensures Lookup(Put(m, key, data, ttl, t), key, later) == Some(data)
    ensures AfterGet(Put(m, key, data, ttl, t), key, later) == Put(m, key, data, ttl, t)
  {
  }

  /** After `t + ttl` the value is gone: `get` returns null and removes exactly that key. */
  lemma SetThenGetAfterExpiry(m: Store, key: string, data: Json, ttl: int, t: int, later: int)
    requires later > t + ttl
    ensures Lookup(Put(m, key, data, ttl, t), key, later) == None
    ensures AfterGet(Put(m, key, data, ttl, t), key, later) == m - {key}
  {
    assert Put(m, key, data, ttl, t) - {key} == m - {key};
  }

  /** `get` on an expired entry removes that key and no other; on an absent key it changes nothing. */
  lemma GetRemovesOnlyExpiredKey(m: Store, key: string, now: int)
    ensures key !in m ==> AfterGet(m, key, now) == m && Lookup(m, key, now) == None
    ensures key in m && now > m[key].expiresAt ==>
      Lookup(m, key, now) == None && AfterGet(m, key, now).Keys == m.Keys - {key}
    ensures forall k :: k in AfterGet(m, key, now) ==> AfterGet(m, key, now)[k] == m[k]
  {
  }

  /** `set` touches only its own key, and `get` of another key is not affected by it. */
  lemma PutLeavesOtherKeys(m: Store, key: string, data: Json, ttl: int, now: int, other: string, t: int)
    requires other != key
    ensures Lookup(Put(m, key, data, ttl, now), other, t) == Lookup(m, other, t)
  {
  }

  /** `clearByPrefix` removes exactly the keys starting with the prefix; every other entry keeps
      its value and expiry. */
  lemma WithoutPrefixExact(m: Store, prefix: string, k: string)
    ensures k in WithoutPrefix(m, prefix) <==> k in m && !StartsWith(k, prefix)
    ensures k in WithoutPrefix(m, prefix) ==> WithoutPrefix(m, prefix)[k] == m[k]
  {
  }

  /** Clearing "excursions" from {"excursions:A", "excursions:B", "reviews:A"} leaves only "reviews:A". */
  lemma WithoutPrefixExample(a: Entry, b: Entry, c: Entry)
    ensures WithoutPrefix(map["excursions:A" := a, "excursions:B" := b, "reviews:A" := c], "excursions")
         == map["reviews:A" := c]
  {
    var m := map["excursions:A" := a, "excursions:B" := b, "reviews:A" := c];
    assert StartsWith("excursions:A", "excursions");
    assert StartsWith("excursions:B", "excursions");
    assert !StartsWith("reviews:A", "excursions") by {
      assert "reviews:A"[0] != "excursions"[0];
    }
    assert WithoutPrefix(m, "excursions").Keys == {"reviews:A"};
  }

  /** The prefix match is case-sensitive: "Excursions:1" survives `clearByPrefix("excursions")`. */
  lemma PrefixIsCaseSensitive(m: Store)
    requires "Excursions:1" in m
    ensures "Excursions:1" in WithoutPrefix(m, "excursions")
  {
    assert "Excursions:1"[0] != "excursions"[0];
  }
}
