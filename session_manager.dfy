/**
 * The component cache: bundles of built components keyed by a fingerprint of
 * the request's environment overrides, each stamped with the time it was
 * stored and dropped once it is `ttl` old.
 *
 * Times are integers in microseconds (the resolution of `datetime`), passed in
 * by the caller, one per `datetime.now()` call of the source.
 */
module SessionManager {
  import opened Outcomes
  import opened Text
  import opened Dicts

  // ---------------------------------------------------------------------------
  // The fingerprint
  // ---------------------------------------------------------------------------

  predicate IsHexChar(c: char) {
    ('0' <= c <= '9') || ('a' <= c <= 'f')
  }

  /** What `hexdigest()` of a SHA-256 hash returns: 64 lower-case hex digits. */
  type HexDigest = s: string | |s| == 64 && forall i :: 0 <= i < |s| ==> IsHexChar(s[i])
    witness seq(64, _ => '0')

  /** Keys strictly increasing in Python's string order. */
  predicate KeysSorted(s: Dict<string>) {
    forall i, j :: 0 <= i < j < |s| ==> StrLess(s[i].0, s[j].0)
  }

  /** Every key of `s` is above `k`. */
  predicate AllAbove(k: string, s: Dict<string>) {
    forall j :: 0 <= j < |s| ==> StrLess(k, s[j].0)
  }

  lemma ConsSorted(x: (string, string), s: Dict<string>)
    requires KeysSorted(s) && AllAbove(x.0, s)
    ensures KeysSorted([x] + s)
  {
    assert forall j :: 0 < j < |s| + 1 ==> ([x] + s)[j] == s[j - 1];
  }

  /** Insert one item into a key-sorted list of items whose keys differ from its own. */
  function InsertByKey(x: (string, string), s: Dict<string>): (r: Dict<string>)
    requires KeysSorted(s)
    requires forall i :: 0 <= i < |s| ==> s[i].0 != x.0
    ensures KeysSorted(r)
    ensures |r| == |s| + 1
    ensures forall y :: y in r <==> y == x || y in s
  {
    if |s| == 0 then [x]
    else if StrLess(x.0, s[0].0) then
      assert AllAbove(x.0, s) by {
        forall j | 0 < j < |s| ensures StrLess(x.0, s[j].0) {
          StrLessTransitive(x.0, s[0].0, s[j].0);
        }
      }
      ConsSorted(x, s);
      [x] + s
    else
      StrLessTotal(x.0, s[0].0);
      var tail := s[1..];
      assert forall j :: 0 <= j < |tail| ==> tail[j] == s[j + 1];
      var rest := InsertByKey(x, tail);
      assert AllAbove(s[0].0, rest) by {
        forall j | 0 <= j < |rest| ensures StrLess(s[0].0, rest[j].0) {
          if rest[j] != x {
            assert rest[j] in rest;
            var p :| 0 <= p < |tail| && tail[p] == rest[j];
            assert s[p + 1] == rest[j];
          }
        }
      }
      ConsSorted(s[0], rest);
      assert s == [s[0]] + tail;
      [s[0]] + rest
  }

  /** `sorted(env_vars.items())`: the same items ordered by key. */
  function SortByKey(d: Dict<string>): (r: Dict<string>)
    requires UniqueKeys(d)
    ensures KeysSorted(r)
    ensures |r| == |d|
    ensures forall y :: y in r <==> y in d
  {
    if |d| == 0 then []
    else
      var tail := d[1..];
      assert forall j :: 0 <= j < |tail| ==> tail[j] == d[j + 1];
      assert UniqueKeys(tail);
      var rest := SortByKey(tail);
      assert forall i :: 0 <= i < |rest| ==> rest[i].0 != d[0].0 by {
        forall i | 0 <= i < |rest| ensures rest[i].0 != d[0].0 {
          assert rest[i] in rest;
          var p :| 0 <= p < |tail| && tail[p] == rest[i];
          assert d[p + 1] == rest[i];
        }
      }
      assert d == [d[0]] + tail;
      InsertByKey(d[0], rest)
  }

  /** In a key-sorted list, the tail holds every item but the head. */
  lemma SortedTail(a: Dict<string>)
    requires KeysSorted(a) && |a| > 0
    ensures forall x :: x in a[1..] <==> x in a && x != a[0]
  {
    StrLessIrreflexive(a[0].0);
    forall x | x in a[1..]
      ensures x != a[0]
    {
      var p :| 0 <= p < |a[1..]| && a[1..][p] == x;
      assert StrLess(a[0].0, a[p + 1].0);
    }
    forall x | x in a && x != a[0]
      ensures x in a[1..]
    {
      var p :| 0 <= p < |a| && a[p] == x;
      assert a[1..][p - 1] == x;
    }
  }

  /** Two key-sorted item lists holding the same items are the same list. */
  lemma {:induction false} SortedUnique(a: Dict<string>, b: Dict<string>)
    requires KeysSorted(a) && KeysSorted(b)
    requires forall x :: x in a <==> x in b
    ensures a == b
  {
    assert |a| > 0 ==> a[0] in b;
    assert |b| > 0 ==> b[0] in a;
    if |a| > 0 && |b| > 0 {
      var i :| 0 <= i < |b| && b[i] == a[0];
      var j :| 0 <= j < |a| && a[j] == b[0];
      if i > 0 && j > 0 {
        StrLessAsymmetric(a[0].0, a[j].0);
      }
      assert a[0] == b[0];
      SortedTail(a);
      SortedTail(b);
      SortedUnique(a[1..], b[1..]);
      assert a == [a[0]] + a[1..] && b == [b[0]] + b[1..];
    }
  }

  /** A cached bundle and the time it was stored. */
  datatype Entry<B> = Entry(components: B, timestamp: int)

  /** `now - timestamp < ttl`: the test under which a lookup returns the entry. */
  predicate Fresh<B>(e: Entry<B>, now: int, ttl: int) {
    now - e.timestamp < ttl
  }

  /** `current_time - timestamp >= ttl`: the test under which cleanup removes the entry. */
  predicate Expired<B>(e: Entry<B>, now: int, ttl: int) {
    now - e.timestamp >= ttl
  }

  /** The two tests are exact complements, at the boundary too. */
  lemma FreshIffNotExpired<B>(e: Entry<B>, now: int, ttl: int)
    ensures Fresh(e, now, ttl) <==> !Expired(e, now, ttl)
  {
  }

  /** The cache after `_cleanup_expired_cache` at time `now`. */
  function Live<B>(cache: map<string, Entry<B>>, now: int, ttl: int): (r: map<string, Entry<B>>)
    ensures forall k :: k in r ==> k in cache && r[k] == cache[k] && !Expired(cache[k], now, ttl)
    ensures forall k :: k in cache && !Expired(cache[k], now, ttl) ==> k in r
  {
    map k | k in cache && !Expired(cache[k], now, ttl) :: cache[k]
  }

  /** What `get_cached_components` returns for key `k`, and the cache it leaves. */
  function LookupSpec<B>(cache: map<string, Entry<B>>, k: string, now: int, ttl: int): (Option<B>, map<string, Entry<B>>) {
    if k in cache && Fresh(cache[k], now, ttl) then (Some(cache[k].components), cache)
    else (None, cache - {k})
  }

  /** What `cache_components` leaves: the new entry stored, then cleanup at `cleanupNow`. */
  function StoreSpec<B>(cache: map<string, Entry<B>>, k: string, b: B, now: int, cleanupNow: int, ttl: int): map<string, Entry<B>> {
    Live(cache[k := Entry(b, now)], cleanupNow, ttl)
  }

  /** After a store, no entry of age `ttl` or more remains, and every younger one does, the new one included. */
  lemma StoreKeepsExactlyYoung<B>(cache: map<string, Entry<B>>, k: string, b: B, now: int, cleanupNow: int, ttl: int)
    ensures var c := StoreSpec(cache, k, b, now, cleanupNow, ttl);
      (forall j :: j in c ==> !Expired(c[j], cleanupNow, ttl)) &&
      (forall j :: j in cache && j != k && !Expired(cache[j], cleanupNow, ttl) ==> j in c && c[j] == cache[j]) &&
      (k in c <==> cleanupNow - now < ttl) &&
      (k in c ==> c[k] == Entry(b, now))
  {
  }

  /** Storing a bundle and then looking it up while it is fresh returns that bundle. */
  lemma {:induction false} StoreThenLookup<B>(cache: map<string, Entry<B>>, k: string, b: B, now: int, cleanupNow: int, later: int, ttl: int)
    requires cleanupNow - now < ttl && later - now < ttl
    ensures LookupSpec(StoreSpec(cache, k, b, now, cleanupNow, ttl), k, later, ttl) ==
      (Some(b), StoreSpec(cache, k, b, now, cleanupNow, ttl))
  {
    var c := StoreSpec(cache, k, b, now, cleanupNow, ttl);
    assert k in c && c[k] == Entry(b, now);
  }

  /** Cleaning up twice at the same time removes nothing more. */
  lemma CleanupIdempotent<B>(cache: map<string, Entry<B>>, now: int, ttl: int)
    ensures Live(Live(cache, now, ttl), now, ttl) == Live(cache, now, ttl)
  {
  }

  /** A lookup that misses removes at most the entry it looked at. */
  lemma LookupMissRemovesOnlyKey<B>(cache: map<string, Entry<B>>, k: string, now: int, ttl: int)
    ensures var (r, c) := LookupSpec(cache, k, now, ttl);
      r.None? ==> (forall j :: j != k ==> (j in c <==> j in cache)) && forall j :: j in c ==> c[j] == cache[j]
  {
  }

  class SessionManager<B> {
    var cache: map<string, Entry<B>>
    const ttl: int
    /** SHA-256 of the JSON text of the sorted item list, as a function of that list. */
    const digest: Dict<string> -> HexDigest

    /** `SessionManager(cache_ttl_minutes)` */
    constructor(cacheTtlMinutes: int, digest: Dict<string> -> HexDigest)
      ensures cache == map[]
      ensures ttl == cacheTtlMinutes * 60 * 1000000
      ensures this.digest == digest
    {
      cache := map[];
      ttl := cacheTtlMinutes * 60 * 1000000;
      this.digest := digest;
    }

    /** `_generate_cache_key` */
    function CacheKey(envVars: Option<Dict<string>>): (k: string)
      requires envVars.Some? ==> UniqueKeys(envVars.value)
      ensures envVars.None? || envVars.value == [] <==> k == "default"
      ensures k != "default" ==> |k| == 16 && k == digest(SortByKey(envVars.value))[..16]
    {
      if envVars.None? || envVars.value == [] then "default"
      else digest(SortByKey(envVars.value))[..16]
    }

    /** The key depends on the set of items only, not on their insertion order. */
    lemma KeyIgnoresOrder(d1: Dict<string>, d2: Dict<string>)
      requires UniqueKeys(d1) && UniqueKeys(d2)
      requires forall x :: x in d1 <==> x in d2
      ensures CacheKey(Some(d1)) == CacheKey(Some(d2))
    {
      SortedUnique(SortByKey(d1), SortByKey(d2));
      assert |d1| > 0 ==> d1[0] in d2;
      assert |d2| > 0 ==> d2[0] in d1;
    }

    /** Items of each key are lower-case hex; so no dict with items shares the key "default". */
    lemma KeyIsHex(envVars: Option<Dict<string>>)
      requires envVars.Some? ==> UniqueKeys(envVars.value)
      ensures var k := CacheKey(envVars); k == "default" || forall i :: 0 <= i < |k| ==> IsHexChar(k[i])
    {
    }

    /** `get_cached_components(env_vars)` at time `now`. */
    method GetCachedComponents(envVars: Option<Dict<string>>, now: int) returns (r: Option<B>)
      requires envVars.Some? ==> UniqueKeys(envVars.value)
      modifies this
      ensures (r, cache) == LookupSpec(old(cache), CacheKey(envVars), now, ttl)
    {
      var key := CacheKey(envVars);
      if key in cache {
        var entry := cache[key];
        if now - entry.timestamp < ttl {
          return Some(entry.components);
        } else {
          cache := cache - {key};
        }
      } else {
        assert cache == cache - {key};
      }
      return None;
    }

    /** `cache_components(env_vars, components)`, stamped `now`, followed by cleanup at `cleanupNow`. */
    method CacheComponents(envVars: Option<Dict<string>>, components: B, now: int, cleanupNow: int)
      requires envVars.Some? ==> UniqueKeys(envVars.value)
      modifies this
      ensures cache == StoreSpec(old(cache), CacheKey(envVars), components, now, cleanupNow, ttl)
    {
      var key := CacheKey(envVars);
      cache := cache[key := Entry(components, now)];
      CleanupExpiredCache(cleanupNow);
    }

    /** `_cleanup_expired_cache` at time `now`: collect the expired keys, then delete each. */
    method CleanupExpiredCache(now: int)
      modifies this
      ensures cache == Live(old(cache), now, ttl)
    {
      var expired := set k | k in cache && Expired(cache[k], now, ttl);
      var remaining := expired;
      while remaining != {}
        invariant remaining <= expired
        invariant cache == old(cache) - (expired - remaining)
        decreases |remaining|
      {
        var key :| key in remaining;
        cache := cache - {key};
        remaining := remaining - {key};
      }
      ghost var live := Live(old(cache), now, ttl);
      assert cache == old(cache) - expired;
      assert forall k :: k in cache <==> k in live;
      assert forall k :: k in cache ==> cache[k] == live[k];
      assert cache == live;
    }

    /** `clear_cache` */
    method ClearCache()
      modifies this
      ensures cache == map[]
    {
      cache := map[];
    }
  }
}
