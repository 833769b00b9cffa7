/**
 * The in-memory response cache of src/utils/cache.ts. Its `Map` is modelled as
 * the keys in insertion order (the order `Map` iterates in) together with the
 * entry of each key. The clock is the `now` parameter of each operation; the
 * browser-only periodic `cleanup` timer is left to the caller.
 */
module CacheStore {
  import opened Common

  // ---------------------------------------------------------------------------
  // Configuration
  // ---------------------------------------------------------------------------

  datatype CacheConfig = CacheConfig(maxAge: int, maxSize: int)

  /** A `Partial<CacheConfig>`. */
  datatype CacheOptions = CacheOptions(maxAge: Option<int>, maxSize: Option<int>)

  const DefaultCacheConfig: CacheConfig := CacheConfig(5 * 60 * 1000, 100)

  /** `{maxAge: 300000, maxSize: 100, ...config}`. */
  function ResolveCacheConfig(options: CacheOptions): (c: CacheConfig)
    ensures c.maxAge == if options.maxAge.Some? then options.maxAge.value else 300000
    ensures c.maxSize == if options.maxSize.Some? then options.maxSize.value else 100
  {
    CacheConfig(options.maxAge.GetOr(DefaultCacheConfig.maxAge), options.maxSize.GetOr(DefaultCacheConfig.maxSize))
  }

  /** The options `apiCache` is built with. */
  const ApiCacheOptions: CacheOptions := CacheOptions(Some(5 * 60 * 1000), Some(50))

  // ---------------------------------------------------------------------------
  // The map as a value
  // ---------------------------------------------------------------------------

  datatype CacheEntry<T> = CacheEntry(data: T, timestamp: int)

  /** The `Map`: its keys in insertion order and the entry of each. */
  datatype Storage<T> = Storage(order: seq<string>, entries: map<string, CacheEntry<T>>)

  predicate Distinct(s: seq<string>) {
    |s| == 0 || (s[0] !in s[1..] && Distinct(s[1..]))
  }

  /** The insertion order lists every stored key exactly once. */
  ghost predicate WellFormed<T>(st: Storage<T>) {
    Distinct(st.order) && forall k :: k in st.entries <==> k in st.order
  }

  /** An element of a duplicate-free sequence occurs neither before nor after its own position. */
  lemma {:induction false} DistinctAt(s: seq<string>, i: nat)
    requires Distinct(s) && i < |s|
    ensures s[i] !in s[..i] && s[i] !in s[i + 1..]
  {
    if i > 0 {
      DistinctAt(s[1..], i - 1);
      assert s[..i] == [s[0]] + s[1..][..i - 1];
      assert s[i + 1..] == s[1..][i..];
      assert s[i] in s[1..];
    }
  }

  /** `order` with `key` taken out. */
  function RemoveKey(order: seq<string>, key: string): (r: seq<string>)
    ensures |r| <= |order|
  {
    if |order| == 0 then []
    else if order[0] == key then RemoveKey(order[1..], key)
    else [order[0]] + RemoveKey(order[1..], key)
  }

  /** Removing a key keeps exactly the other keys, keeps them duplicate-free, and changes nothing when the key is absent. */
  lemma {:induction false} RemoveKeyFacts(order: seq<string>, key: string)
    ensures forall x :: x in RemoveKey(order, key) <==> x in order && x != key
    ensures Distinct(order) ==> Distinct(RemoveKey(order, key))
    ensures key !in order ==> RemoveKey(order, key) == order
    decreases |order|
  {
    if |order| > 0 {
      RemoveKeyFacts(order[1..], key);
      var rest := RemoveKey(order[1..], key);
      assert forall x :: x in order <==> x == order[0] || x in order[1..];
      if order[0] != key {
        assert ([order[0]] + rest)[1..] == rest;
      }
    }
  }

  /** Removing a key that occurs once, between two parts that do not hold it, joins the parts. */
  lemma {:induction false} RemoveKeyBetween(a: seq<string>, key: string, b: seq<string>)
    requires key !in a && key !in b
    ensures RemoveKey(a + [key] + b, key) == a + b
    decreases |a|
  {
    if |a| == 0 {
      assert a + [key] + b == [key] + b;
      assert ([key] + b)[1..] == b;
      RemoveKeyFacts(b, key);
    } else {
      RemoveKeyBetween(a[1..], key, b);
      assert (a + [key] + b)[1..] == a[1..] + [key] + b;
      assert a + b == [a[0]] + (a[1..] + b);
    }
  }

  /** `storage.delete(key)`. */
  function DeleteKey<T>(st: Storage<T>, key: string): (r: Storage<T>)
    ensures WellFormed(st) ==> WellFormed(r)
    ensures r.entries == st.entries - {key}
    ensures key !in st.order ==> r.order == st.order
  {
    RemoveKeyFacts(st.order, key);
    Storage(RemoveKey(st.order, key), st.entries - {key})
  }

  /** `storage.set(key, e)`: a new key goes last, an existing key keeps its place. */
  function Put<T>(st: Storage<T>, key: string, e: CacheEntry<T>): (r: Storage<T>)
    requires WellFormed(st)
    ensures WellFormed(r)
    ensures r.entries == st.entries[key := e]
    ensures r.order == if key in st.entries then st.order else st.order + [key]
  {
    if key in st.entries then Storage(st.order, st.entries[key := e])
    else
      assert Distinct(st.order + [key]) by { DistinctSnoc(st.order, key); }
      Storage(st.order + [key], st.entries[key := e])
  }

  lemma {:induction false} DistinctSnoc(s: seq<string>, x: string)
    requires Distinct(s) && x !in s
    ensures Distinct(s + [x])
    decreases |s|
  {
    if |s| > 0 {
      DistinctSnoc(s[1..], x);
      assert (s + [x])[1..] == s[1..] + [x];
    }
  }

  /** The eviction test of `set`: at capacity, and the first key is truthy (not `""`). */
  predicate EvictsOnSet<T>(st: Storage<T>, maxSize: int) {
    |st.order| >= maxSize && |st.order| > 0 && st.order[0] != ""
  }

  /** `set(key, data)` at time `now`. */
  function SetSpec<T>(st: Storage<T>, key: string, data: T, now: int, maxSize: int): (r: Storage<T>)
    requires WellFormed(st)
    ensures WellFormed(r)
    ensures key in r.entries && r.entries[key] == CacheEntry(data, now)
    ensures forall k :: k in r.entries && k != key ==> k in st.entries && r.entries[k] == st.entries[k]
    ensures forall k :: k in st.entries && k != key && !(EvictsOnSet(st, maxSize) && k == st.order[0]) ==> k in r.entries
  {
    var kept := if EvictsOnSet(st, maxSize) then DeleteKey(st, st.order[0]) else st;
    Put(kept, key, CacheEntry(data, now))
  }

  function Max(a: int, b: int): int {
    if a < b then b else a
  }

  /**
   * `set` never lets the map grow past `max(maxSize, 1)`, except that an
   * oldest key `""` is never evicted (it is falsy), so the bound is kept only
   * while the oldest key is not `""`.
   */
  lemma SetKeepsSizeBound<T>(st: Storage<T>, key: string, data: T, now: int, maxSize: int)
    requires WellFormed(st) && |st.order| <= Max(maxSize, 1)
    requires |st.order| > 0 ==> st.order[0] != ""
    ensures |SetSpec(st, key, data, now, maxSize).order| <= Max(maxSize, 1)
  {
    if EvictsOnSet(st, maxSize) {
      RemoveFirst(st.order);
    }
  }

  /** Removing the first key of a duplicate-free order leaves the rest. */
  lemma RemoveFirst(order: seq<string>)
    requires Distinct(order) && |order| > 0
    ensures RemoveKey(order, order[0]) == order[1..]
  {
    assert order == [] + [order[0]] + order[1..];
    RemoveKeyBetween([], order[0], order[1..]);
  }

  /** At capacity, `set` first deletes the oldest key (unless it is `""`), then inserts. */
  lemma SetEvictsOldestFirst<T>(st: Storage<T>, key: string, data: T, now: int, maxSize: int)
    requires WellFormed(st) && EvictsOnSet(st, maxSize) && st.order[0] != key
    ensures var r := SetSpec(st, key, data, now, maxSize);
      st.order[0] !in r.entries &&
      r.order == if key in st.entries then st.order[1..] else st.order[1..] + [key]
  {
    RemoveFirst(st.order);
  }

  /** Re-setting a stored key replaces its entry and keeps its place, when nothing is evicted. */
  lemma ResetKeepsPosition<T>(st: Storage<T>, key: string, data: T, now: int, maxSize: int)
    requires WellFormed(st) && key in st.entries && !EvictsOnSet(st, maxSize)
    ensures SetSpec(st, key, data, now, maxSize).order == st.order
    ensures SetSpec(st, key, data, now, maxSize).entries == st.entries[key := CacheEntry(data, now)]
  {
  }

  /** Below capacity, a new key is appended last and nothing is removed. */
  lemma NewKeyGoesLast<T>(st: Storage<T>, key: string, data: T, now: int, maxSize: int)
    requires WellFormed(st) && key !in st.entries && !EvictsOnSet(st, maxSize)
    ensures SetSpec(st, key, data, now, maxSize).order == st.order + [key]
    ensures SetSpec(st, key, data, now, maxSize).entries == st.entries[key := CacheEntry(data, now)]
  {
  }

  /**
   * At capacity, re-setting the oldest key deletes it first and so moves it to
   * the end of the insertion order, with the new entry.
   */
  lemma ResetOldestMovesItLast<T>(st: Storage<T>, data: T, now: int, maxSize: int)
    requires WellFormed(st) && EvictsOnSet(st, maxSize)
    ensures var key := st.order[0];
      SetSpec(st, key, data, now, maxSize).order == st.order[1..] + [key] &&
      SetSpec(st, key, data, now, maxSize).entries == st.entries[key := CacheEntry(data, now)]
  {
    var key := st.order[0];
    RemoveFirst(st.order);
    assert key !in st.order[1..] by { DistinctAt(st.order, 0); }
    assert (st.entries - {key})[key := CacheEntry(data, now)] == st.entries[key := CacheEntry(data, now)];
  }

  /** With `""` stored first and the map full, `set` adds a key without evicting anything. */
  lemma EmptyOldestKeyIsNeverEvicted<T>(e: CacheEntry<T>, data: T, now: int)
    ensures var st := Storage([""], map["" := e]);
      |SetSpec(st, "a", data, now, 1).order| == 2
  {
    var st := Storage([""], map["" := e]);
    assert !EvictsOnSet(st, 1);
    assert "a" !in st.entries;
  }

  // ---------------------------------------------------------------------------
  // Reading and expiry
  // ---------------------------------------------------------------------------

  /** An entry is still valid while `now - timestamp <= maxAge`. */
  predicate Fresh<T>(e: CacheEntry<T>, now: int, maxAge: int) {
    now - e.timestamp <= maxAge
  }

  /** `has(key)`. */
  predicate HasSpec<T>(st: Storage<T>, key: string, now: int, maxAge: int) {
    key in st.entries && Fresh(st.entries[key], now, maxAge)
  }

  datatype GetResult<T> = GetResult(value: Option<T>, storage: Storage<T>)

  /** `get(key)`: absent gives null; expired gives null and deletes the key; otherwise the data. */
  function GetSpec<T>(st: Storage<T>, key: string, now: int, maxAge: int): (r: GetResult<T>)
    ensures key !in st.entries ==> r.value.None? && r.storage == st
    ensures key in st.entries && !Fresh(st.entries[key], now, maxAge) ==> r.value.None? && r.storage == DeleteKey(st, key)
    ensures key in st.entries && Fresh(st.entries[key], now, maxAge) ==>
      r.value == Some(st.entries[key].data) && r.storage == st
  {
    if key !in st.entries then GetResult(None, st)
    else if now - st.entries[key].timestamp > maxAge then GetResult(None, DeleteKey(st, key))
    else GetResult(Some(st.entries[key].data), st)
  }

  /**
   * `get` and `has` agree on whether a value is there; an entry exactly
   * `maxAge` old is still served; `get` removes at most the key it was asked
   * for.
   */
  lemma GetAgreesWithHas<T>(st: Storage<T>, key: string, now: int, maxAge: int)
    requires WellFormed(st)
    ensures GetSpec(st, key, now, maxAge).value.Some? <==> HasSpec(st, key, now, maxAge)
    ensures key in st.entries && now - st.entries[key].timestamp == maxAge ==>
      GetSpec(st, key, now, maxAge).value == Some(st.entries[key].data)
    ensures GetSpec(st, key, now, maxAge).storage.entries == st.entries ||
      GetSpec(st, key, now, maxAge).storage.entries == st.entries - {key}
  {
  }

  /** The keys of `order` that are not expired entries, in order. */
  function FreshKeys<T>(order: seq<string>, entries: map<string, CacheEntry<T>>, now: int, maxAge: int): (r: seq<string>)
    ensures |r| <= |order|
  {
    if |order| == 0 then []
    else
      var rest := FreshKeys(order[1..], entries, now, maxAge);
      if order[0] in entries && !Fresh(entries[order[0]], now, maxAge) then rest else [order[0]] + rest
  }

  /** The kept keys are exactly the keys of `order` that are not expired entries. */
  lemma {:induction false} FreshKeysMembers<T>(order: seq<string>, entries: map<string, CacheEntry<T>>, now: int, maxAge: int)
    ensures forall x :: x in FreshKeys(order, entries, now, maxAge) <==>
      x in order && !(x in entries && !Fresh(entries[x], now, maxAge))
    decreases |order|
  {
    if |order| > 0 {
      FreshKeysMembers(order[1..], entries, now, maxAge);
      assert forall x :: x in order <==> x == order[0] || x in order[1..];
    }
  }

  lemma {:induction false} FreshKeysSnoc<T>(order: seq<string>, k: string, entries: map<string, CacheEntry<T>>, now: int, maxAge: int)
    ensures FreshKeys(order + [k], entries, now, maxAge) ==
      FreshKeys(order, entries, now, maxAge) + (if k in entries && !Fresh(entries[k], now, maxAge) then [] else [k])
    decreases |order|
  {
    if |order| == 0 {
      assert order + [k] == [k];
    } else {
      FreshKeysSnoc(order[1..], k, entries, now, maxAge);
      assert (order + [k])[1..] == order[1..] + [k];
    }
  }

  /** `cleanup()`: every expired entry goes, every other entry stays where it was. */
  function CleanupSpec<T>(st: Storage<T>, now: int, maxAge: int): (r: Storage<T>)
    ensures forall k :: k in r.entries <==> k in st.entries && Fresh(st.entries[k], now, maxAge)
    ensures forall k :: k in r.entries ==> r.entries[k] == st.entries[k]
  {
    Storage(FreshKeys(st.order, st.entries, now, maxAge),
            map k | k in st.entries && Fresh(st.entries[k], now, maxAge) :: st.entries[k])
  }

  /** After `cleanup` every key left is served by `get`, and a second `cleanup` at the same time changes nothing. */
  lemma CleanupLeavesOnlyFresh<T>(st: Storage<T>, now: int, maxAge: int)
    requires WellFormed(st)
    ensures var r := CleanupSpec(st, now, maxAge);
      forall k :: k in r.entries ==> HasSpec(r, k, now, maxAge) && GetSpec(r, k, now, maxAge).storage == r
    ensures CleanupSpec(CleanupSpec(st, now, maxAge), now, maxAge).entries == CleanupSpec(st, now, maxAge).entries
  {
  }

  /** The map after `cleanup` has visited the first `i` keys of the insertion order `keys`. */
  function CleanupUpTo<T>(keys: seq<string>, e0: map<string, CacheEntry<T>>, now: int, maxAge: int, i: nat): Storage<T>
    requires i <= |keys|
  {
    Storage(FreshKeys(keys[..i], e0, now, maxAge) + keys[i..],
            map k | k in e0 && (k in keys[i..] || Fresh(e0[k], now, maxAge)) :: e0[k])
  }

  lemma CleanupStart<T>(keys: seq<string>, e0: map<string, CacheEntry<T>>, now: int, maxAge: int)
    requires WellFormed(Storage(keys, e0))
    ensures CleanupUpTo(keys, e0, now, maxAge, 0) == Storage(keys, e0)
  {
    assert keys[..0] == [] && keys[0..] == keys;
    var m := CleanupUpTo(keys, e0, now, maxAge, 0).entries;
    assert m.Keys == e0.Keys;
  }

  /** Taking an expired key out of the partly cleaned order joins what was kept before it to the keys after it. */
  lemma DropVisitedKey(prefix: seq<string>, key: string, rest: seq<string>)
    requires key !in prefix && key !in rest
    ensures RemoveKey(prefix + ([key] + rest), key) == prefix + rest
  {
    assert prefix + ([key] + rest) == prefix + [key] + rest;
    RemoveKeyBetween(prefix, key, rest);
  }

  /** A fresh (or entry-less) key i stays in the order, in its place. */
  lemma CleanupKeepsVisitedKey<T>(keys: seq<string>, e0: map<string, CacheEntry<T>>, now: int, maxAge: int, i: nat)
    requires i < |keys| && !(keys[i] in e0 && !Fresh(e0[keys[i]], now, maxAge))
    ensures FreshKeys(keys[..i + 1], e0, now, maxAge) + keys[i + 1..] == FreshKeys(keys[..i], e0, now, maxAge) + keys[i..]
  {
    var key, rest := keys[i], keys[i + 1..];
    assert keys[..i + 1] == keys[..i] + [key];
    assert keys[i..] == [key] + rest;
    FreshKeysSnoc(keys[..i], key, e0, now, maxAge);
  }

  /** An expired key i leaves the order. */
  lemma CleanupDropsVisitedKey<T>(keys: seq<string>, e0: map<string, CacheEntry<T>>, now: int, maxAge: int, i: nat)
    requires Distinct(keys) && i < |keys| && keys[i] in e0 && !Fresh(e0[keys[i]], now, maxAge)
    ensures FreshKeys(keys[..i + 1], e0, now, maxAge) + keys[i + 1..] ==
      RemoveKey(FreshKeys(keys[..i], e0, now, maxAge) + keys[i..], keys[i])
  {
    var key, rest := keys[i], keys[i + 1..];
    var prefix := FreshKeys(keys[..i], e0, now, maxAge);
    assert keys[..i + 1] == keys[..i] + [key];
    assert keys[i..] == [key] + rest;
    FreshKeysSnoc(keys[..i], key, e0, now, maxAge);
    DistinctAt(keys, i);
    FreshKeysMembers(keys[..i], e0, now, maxAge);
    assert key !in prefix;
    DropVisitedKey(prefix, key, rest);
  }

  /** Visiting key i deletes its entry exactly when it is expired. */
  lemma CleanupStepEntries<T>(keys: seq<string>, e0: map<string, CacheEntry<T>>, now: int, maxAge: int, i: nat)
    requires i < |keys| && keys[i] in e0
    ensures var before := map k | k in e0 && (k in keys[i..] || Fresh(e0[k], now, maxAge)) :: e0[k];
      var after := map k | k in e0 && (k in keys[i + 1..] || Fresh(e0[k], now, maxAge)) :: e0[k];
      Distinct(keys) ==>
        after == if Fresh(e0[keys[i]], now, maxAge) then before else before - {keys[i]}
  {
    if Distinct(keys) {
      DistinctAt(keys, i);
      assert keys[i..] == [keys[i]] + keys[i + 1..];
    }
  }

  /** Visiting key i deletes it exactly when its entry is expired. */
  lemma CleanupStep<T>(keys: seq<string>, e0: map<string, CacheEntry<T>>, now: int, maxAge: int, i: nat)
    requires WellFormed(Storage(keys, e0)) && i < |keys|
    ensures keys[i] in CleanupUpTo(keys, e0, now, maxAge, i).entries
    ensures CleanupUpTo(keys, e0, now, maxAge, i).entries[keys[i]] == e0[keys[i]]
    ensures CleanupUpTo(keys, e0, now, maxAge, i + 1) ==
      if Fresh(e0[keys[i]], now, maxAge) then CleanupUpTo(keys, e0, now, maxAge, i)
      else DeleteKey(CleanupUpTo(keys, e0, now, maxAge, i), keys[i])
  {
    assert keys[i] in keys[i..];
    if Fresh(e0[keys[i]], now, maxAge) {
      CleanupKeepsVisitedKey(keys, e0, now, maxAge, i);
    } else {
      CleanupDropsVisitedKey(keys, e0, now, maxAge, i);
    }
    CleanupStepEntries(keys, e0, now, maxAge, i);
  }

  lemma CleanupEnd<T>(keys: seq<string>, e0: map<string, CacheEntry<T>>, now: int, maxAge: int)
    ensures CleanupUpTo(keys, e0, now, maxAge, |keys|) == CleanupSpec(Storage(keys, e0), now, maxAge)
  {
    assert keys[..|keys|] == keys;
    assert keys[|keys|..] == [];
    assert FreshKeys(keys, e0, now, maxAge) + [] == FreshKeys(keys, e0, now, maxAge);
  }

  // ---------------------------------------------------------------------------
  // The cache object
  // ---------------------------------------------------------------------------

  class Cache<T> {
    var order: seq<string>
    var entries: map<string, CacheEntry<T>>
    const config: CacheConfig

    function Contents(): Storage<T>
      reads this
    {
      Storage(order, entries)
    }

    ghost predicate Valid()
      reads this
    {
      WellFormed(Contents())
    }

    /** `new Cache(config)`: an empty map and the defaults overridden by `options`. */
    constructor (options: CacheOptions)
      ensures Valid() && Contents() == Storage([], map[])
      ensures config == ResolveCacheConfig(options)
    {
      order := [];
      entries := map[];
      config := ResolveCacheConfig(options);
    }

    method Set(key: string, data: T, now: int)
      requires Valid()
      modifies this
      ensures Valid()
      ensures Contents() == SetSpec(old(Contents()), key, data, now, config.maxSize)
    {
      if |order| >= config.maxSize && |order| > 0 {
        var oldest := order[0];
        if oldest != "" {
          RemoveKeyFacts(order, oldest);
          order := RemoveKey(order, oldest);
          entries := entries - {oldest};
        }
      }
      if key !in entries {
        DistinctSnoc(order, key);
        order := order + [key];
      }
      entries := entries[key := CacheEntry(data, now)];
    }

    method Get(key: string, now: int) returns (value: Option<T>)
      requires Valid()
      modifies this
      ensures Valid()
      ensures GetResult(value, Contents()) == GetSpec(old(Contents()), key, now, config.maxAge)
    {
      if key !in entries {
        return None;
      }
      var entry := entries[key];
      if now - entry.timestamp > config.maxAge {
        RemoveKeyFacts(order, key);
        order := RemoveKey(order, key);
        entries := entries - {key};
        return None;
      }
      return Some(entry.data);
    }

    method Has(key: string, now: int) returns (present: bool)
      requires Valid()
      ensures present <==> key in entries && now - entries[key].timestamp <= config.maxAge
    {
      present := key in entries && now - entries[key].timestamp <= config.maxAge;
    }

    method Delete(key: string)
      requires Valid()
      modifies this
      ensures Valid()
      ensures Contents() == DeleteKey(old(Contents()), key)
    {
      RemoveKeyFacts(order, key);
      order := RemoveKey(order, key);
      entries := entries - {key};
    }

    method Clear()
      modifies this
      ensures Valid() && Contents() == Storage([], map[])
    {
      order := [];
      entries := map[];
    }

    /** `cleanup()`: walks the keys in insertion order and deletes each expired one. */
    method Cleanup(now: int)
      requires Valid()
      modifies this
      ensures Valid()
      ensures Contents() == CleanupSpec(old(Contents()), now, config.maxAge)
    {
      var keys := order;
      ghost var e0 := entries;
      CleanupStart(keys, e0, now, config.maxAge);
      var i := 0;
      while i < |keys|
        invariant 0 <= i <= |keys|
        invariant Valid()
        invariant Contents() == CleanupUpTo(keys, e0, now, config.maxAge, i)
      {
        var key := keys[i];
        CleanupStep(keys, e0, now, config.maxAge, i);
        if now - entries[key].timestamp > config.maxAge {
          RemoveKeyFacts(order, key);
          order := RemoveKey(order, key);
          entries := entries - {key};
        }
        i := i + 1;
      }
      CleanupEnd(keys, e0, now, config.maxAge);
    }
  }
}
