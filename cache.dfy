/** The in-memory mode of the cache manager: used when no Redis client is configured, it keeps
    string values with an optional absolute expiry time. Time is an injected integer clock `now`
    (seconds). A `ttl` of 0 stands for both 0 and Python's `None`, which the source treats alike. */
module CacheManager {
  import opened Wrappers
  import Py
  import Glob
  import Json

  /** A stored value and its expiry time (None: never expires). */
  datatype Entry = Entry(value: string, expireAt: Option<int>)

  type Store = map<string, Entry>

  /** An entry is live until its expiry time is reached. */
  predicate Live(e: Entry, now: int) {
    e.expireAt.None? || e.expireAt.value > now
  }

  /** The value `_get_memory` returns. */
  function Read(store: Store, key: string, now: int): (r: Option<string>)
    ensures r.Some? <==> key in store && Live(store[key], now)
    ensures r.Some? ==> r.value == store[key].value
  {
    if key in store && Live(store[key], now) then Some(store[key].value) else None
  }

  /** The store after `_get_memory`: an expired entry that is read is dropped. */
  function AfterRead(store: Store, key: string, now: int): (s: Store)
    ensures s.Keys <= store.Keys
    ensures forall k :: k in s ==> s[k] == store[k]
    ensures key in store && !Live(store[key], now) ==> s == store - {key}
    ensures !(key in store && !Live(store[key], now)) ==> s == store
  {
    if key in store && !Live(store[key], now) then store - {key} else store
  }

  /** The store after reading every key of `keys`: the entries read while expired are gone,
      every other entry is kept as it was. */
  function ReadAll(store: Store, keys: seq<string>, now: int): Store {
    map k | k in store && (k !in keys || Live(store[k], now)) :: store[k]
  }

  /** Reading one more key drops it too when it has expired. */
  lemma ReadAllSnoc(store: Store, keys: seq<string>, key: string, now: int)
    ensures AfterRead(ReadAll(store, keys, now), key, now) == ReadAll(store, keys + [key], now)
  {
    var a := AfterRead(ReadAll(store, keys, now), key, now);
    var b := ReadAll(store, keys + [key], now);
    assert forall k :: k in keys + [key] <==> k in keys || k == key;
    assert a.Keys == b.Keys;
  }

  /** `_set_memory`'s expiry: now + ttl for a truthy ttl, otherwise none. */
  function ExpiryFor(ttl: int, now: int): Option<int> {
    if ttl != 0 then Some(now + ttl) else None
  }

  /** `ttl or default_ttl` */
  function EffectiveTtl(ttl: int, defaultTtl: int): (t: int)
    ensures ttl != 0 ==> t == ttl
    ensures ttl == 0 ==> t == defaultTtl
  {
    if ttl != 0 then ttl else defaultTtl
  }

  /** A written value reads back until its ttl runs out, and writing touches no other key. */
  lemma ReadAfterWrite(store: Store, key: string, value: string, ttl: int, now: int, later: int, other: string)
    requires now <= later
    ensures Read(store[key := Entry(value, ExpiryFor(ttl, now))], key, later)
      == (if ttl == 0 || later < now + ttl then Some(value) else None)
    ensures other != key ==> Read(store[key := Entry(value, ExpiryFor(ttl, now))], other, later) == Read(store, other, later)
  {
  }

  /** The value that `increment` stores and returns, or None for a non-integer value. */
  function Incremented(store: Store, key: string, amount: int, now: int): Option<int> {
    CountFrom(Read(store, key, now), amount)
  }

  /** The counter after adding `amount` to the value read (none read counts as 0). */
  function CountFrom(current: Option<string>, amount: int): Option<int> {
    if current.None? then Some(amount)
    else
      var parsed := Py.ParseInt(current.value);
      if parsed.None? then None else Some(parsed.value + amount)
  }

  /** The store after a successful `increment`: the counter is written as text, without expiry. */
  function AfterIncrement(store: Store, key: string, amount: int, now: int): Store
    requires Incremented(store, key, amount, now).Some?
  {
    AfterRead(store, key, now)[key := Entry(Py.IntToString(Incremented(store, key, amount, now).value), None)]
  }

  /** Two increments add up: the stored text parses back to the counter it holds. */
  lemma {:induction false} IncrementTwice(store: Store, key: string, a: int, b: int, now: int, later: int)
    requires Incremented(store, key, a, now).Some?
    ensures var n := Incremented(store, key, a, now).value;
      Incremented(AfterIncrement(store, key, a, now), key, b, later) == Some(n + b)
  {
    var n := Incremented(store, key, a, now).value;
    var s := AfterIncrement(store, key, a, now);
    var text := Py.IntToString(n);
    assert Read(s, key, later) == Some(text);
    Py.ParseIntToString(n);
    CountParsed(text, n, b);
  }

  /** A text that parses as `n` counts on from `n`. */
  lemma CountParsed(text: string, n: int, amount: int)
    requires Py.ParseInt(text) == Some(n)
    ensures CountFrom(Some(text), amount) == Some(n + amount)
  {
  }

  /** A text that does not parse stops the count. */
  lemma CountRejected(text: string, amount: int)
    requires Py.ParseInt(text) == None
    ensures CountFrom(Some(text), amount) == None
  {
  }

  /** A value whose text is not an integer makes `increment` fail. */
  lemma {:induction false} IncrementRejectsText(store: Store, key: string, amount: int, now: int)
    requires key in store && Live(store[key], now)
    requires forall i :: 0 <= i < |store[key].value| ==> !Py.IsDigit(store[key].value[i])
    ensures Incremented(store, key, amount, now) == None
  {
    var text := store[key].value;
    assert Read(store, key, now) == Some(text);
    Py.ParseIntNeedsDigit(text);
    CountRejected(text, amount);
  }

  /** `session_cache_key` */
  function SessionCacheKey(userId: string, sessionId: string): string {
    "session:" + userId + ":" + sessionId
  }

  /** `user_paths_cache_key` */
  function UserPathsCacheKey(userId: string): string {
    "user_paths:" + userId
  }

  /** The pattern `invalidate_user_sessions` deletes. */
  function UserSessionsPattern(userId: string): string {
    "session:" + userId + ":*"
  }

  /** The user-sessions pattern matches exactly the keys under that user's session prefix, among
      them every session key of the user. */
  lemma {:induction false} UserSessionsPatternMatches(userId: string, key: string, sessionId: string)
    requires Glob.NoWildcards(userId)
    ensures Glob.Match(UserSessionsPattern(userId), key) <==> Py.StartsWith(key, "session:" + userId + ":")
    ensures Glob.Match(UserSessionsPattern(userId), SessionCacheKey(userId, sessionId))
  {
    var prefix := "session:" + userId + ":";
    assert UserSessionsPattern(userId) == prefix + "*";
    assert Glob.NoWildcards(prefix) by {
      assert prefix == "session:" + userId + ":";
    }
    Glob.MatchPrefixStar(prefix, key);
    Glob.MatchPrefixStar(prefix, SessionCacheKey(userId, sessionId));
    assert SessionCacheKey(userId, sessionId)[..|prefix|] == prefix;
  }

  /** The keys of `store` that `pattern` matches. */
  function Matching(store: Store, pattern: string): set<string> {
    set k | k in store && Glob.Match(pattern, k)
  }

  /** The entries `set_many` writes for the keys `done` of `mapping`. */
  function Written(mapping: map<string, string>, done: set<string>, exp: Option<int>): (m: Store)
    requires done <= mapping.Keys
    ensures m.Keys == done
    ensures forall k :: k in m ==> m[k] == Entry(mapping[k], exp)
  {
    map k | k in done :: Entry(mapping[k], exp)
  }

  /** Writing one more key of `mapping` extends what `set_many` has written so far. */
  lemma WrittenStep(base: Store, mapping: map<string, string>, done: set<string>, k: string, exp: Option<int>)
    requires done <= mapping.Keys && k in mapping && k !in done
    ensures (base + Written(mapping, done, exp))[k := Entry(mapping[k], exp)]
      == base + Written(mapping, done + {k}, exp)
  {
    var lhs := (base + Written(mapping, done, exp))[k := Entry(mapping[k], exp)];
    var rhs := base + Written(mapping, done + {k}, exp);
    assert lhs.Keys == rhs.Keys;
    forall j | j in lhs ensures lhs[j] == rhs[j] {
    }
  }

  /** Taking `k` out of what is left adds it to what is done. */
  lemma TakeOne(all: set<string>, todo: set<string>, k: string)
    requires todo <= all && k in todo
    ensures all - (todo - {k}) == (all - todo) + {k}
    ensures k !in all - todo
  {
  }

  /** Deleting one more stored key: the removed set grows by that key. */
  lemma RemoveStep(base: Store, gone: set<string>, k: string)
    requires k !in gone
    ensures (base - gone) - {k} == base - (gone + {k})
    ensures |gone + {k}| == |gone| + 1
  {
  }

  /** `CacheManager` with no Redis client. */
  class MemoryCache {
    var store: Store
    const defaultTtl: int

    constructor(defaultTtl: int)
      ensures store == map[] && this.defaultTtl == defaultTtl
    {
      store := map[];
      this.defaultTtl := defaultTtl;
    }

    /** `_get_memory` */
    method GetMemory(key: string, now: int) returns (r: Option<string>)
      modifies this
      ensures r == Read(old(store), key, now)
      ensures store == AfterRead(old(store), key, now)
    {
      if key !in store {
        return None;
      }
      var item := store[key];
      if item.expireAt.Some? && item.expireAt.value <= now {
        store := store - {key};
        return None;
      }
      return Some(item.value);
    }

    /** `_set_memory` */
    method SetMemory(key: string, value: string, ttl: int, now: int) returns (ok: bool)
      modifies this
      ensures ok
      ensures store == old(store)[key := Entry(value, ExpiryFor(ttl, now))]
    {
      var expireAt := if ttl != 0 then Some(now + ttl) else None;
      store := store[key := Entry(value, expireAt)];
      return true;
    }

    /** `_delete_memory`: true iff the key was stored, expired or not. */
    method DeleteMemory(key: string) returns (deleted: bool)
      modifies this
      ensures deleted <==> key in old(store)
      ensures store == old(store) - {key}
    {
      deleted := key in store;
      store := store - {key};
    }

    /** `_exists_memory`: a live entry exists, even one holding "". */
    method ExistsMemory(key: string, now: int) returns (b: bool)
      modifies this
      ensures b <==> Read(old(store), key, now).Some?
      ensures store == AfterRead(old(store), key, now)
    {
      var v := GetMemory(key, now);
      b := v.Some?;
    }

    /** `_expire_memory`: a live entry keeps its value and expires ttl seconds from now. */
    method ExpireMemory(key: string, ttl: int, now: int) returns (ok: bool)
      modifies this
      ensures ok <==> Read(old(store), key, now).Some?
      ensures ok ==> store == old(store)[key := Entry(old(store)[key].value, Some(now + ttl))]
      ensures !ok ==> store == AfterRead(old(store), key, now)
    {
      var v := GetMemory(key, now);
      if v.None? {
        return false;
      }
      store := store[key := Entry(v.value, Some(now + ttl))];
      return true;
    }

    /** `get`: a stored empty string counts as a miss. */
    method Get(key: string, now: int) returns (r: Option<string>)
      modifies this
      ensures r == (if Read(old(store), key, now) == Some("") then None else Read(old(store), key, now))
      ensures store == AfterRead(old(store), key, now)
    {
      var v := GetMemory(key, now);
      if v.Some? && v.value != "" {
        return v;
      }
      return None;
    }

    /** `set` in memory mode: nx and xx are ignored, and a falsy ttl means the default. */
    method Set(key: string, value: string, ttl: int, nx: bool, xx: bool, now: int) returns (ok: bool)
      modifies this
      ensures ok
      ensures store == old(store)[key := Entry(value, ExpiryFor(EffectiveTtl(ttl, defaultTtl), now))]
    {
      var t := if ttl != 0 then ttl else defaultTtl;
      ok := SetMemory(key, value, t, now);
    }

    /** `delete` */
    method Delete(key: string) returns (deleted: bool)
      modifies this
      ensures deleted <==> key in old(store)
      ensures store == old(store) - {key}
    {
      deleted := DeleteMemory(key);
    }

    /** `exists` */
    method Exists(key: string, now: int) returns (b: bool)
      modifies this
      ensures b <==> Read(old(store), key, now).Some?
      ensures store == AfterRead(old(store), key, now)
    {
      b := ExistsMemory(key, now);
    }

    /** `expire` */
    method Expire(key: string, ttl: int, now: int) returns (ok: bool)
      modifies this
      ensures ok <==> Read(old(store), key, now).Some?
      ensures ok ==> store == old(store)[key := Entry(old(store)[key].value, Some(now + ttl))]
      ensures !ok ==> store == AfterRead(old(store), key, now)
    {
      ok := ExpireMemory(key, ttl, now);
    }

    /** `increment`: a missing key starts from `amount`; a value that `int()` rejects gives None
        and is left in place; the counter is stored without expiry. */
    method Increment(key: string, amount: int, now: int) returns (r: Option<int>)
      modifies this
      ensures r == Incremented(old(store), key, amount, now)
      ensures r.Some? ==> store == AfterIncrement(old(store), key, amount, now)
      ensures r.None? ==> store == AfterRead(old(store), key, now)
    {
      ghost var before := store;
      var current := GetMemory(key, now);
      ghost var afterRead := store;
      var newValue: int;
      if current.None? {
        newValue := amount;
      } else {
        var parsed := Py.ParseInt(current.value);
        if parsed.None? {
          CountRejected(current.value, amount);
          return None;
        }
        newValue := parsed.value + amount;
        CountParsed(current.value, parsed.value, amount);
      }
      assert Incremented(before, key, amount, now) == Some(newValue);
      var text := Py.IntToString(newValue);
      var _ := SetMemory(key, text, 0, now);
      assert store == afterRead[key := Entry(text, None)];
      return Some(newValue);
    }

    /** `get_many`: one entry per requested key, each read as `_get_memory` reads it; the store
      loses exactly the requested entries that had expired. */
    method GetMany(keys: seq<string>, now: int) returns (r: map<string, Option<string>>)
      modifies this
      ensures r.Keys == set k | k in keys
      ensures forall k :: k in r ==> r[k] == Read(old(store), k, now)
      ensures store == ReadAll(old(store), keys, now)
      ensures store.Keys <= old(store).Keys
      ensures forall k :: k in store ==> store[k] == old(store)[k]
      ensures forall k :: k in old(store) && k !in keys ==> k in store
      ensures forall k :: k in old(store) && Live(old(store)[k], now) ==> k in store
    {
      r := map[];
      var i := 0;
      while i < |keys|
        invariant 0 <= i <= |keys|
        invariant r.Keys == set k | k in keys[..i]
        invariant forall k :: k in r ==> r[k] == Read(old(store), k, now)
        invariant store.Keys <= old(store).Keys
        invariant forall k :: k in store ==> store[k] == old(store)[k]
        invariant forall k :: k in old(store) && k !in keys[..i] ==> k in store
        invariant forall k :: k in keys[..i] ==> Read(store, k, now) == None || k in store
        invariant forall k :: k in old(store) && k !in store ==> !Live(old(store)[k], now)
        invariant store == ReadAll(old(store), keys[..i], now)
      {
        ReadAllSnoc(old(store), keys[..i], keys[i], now);
        var v := GetMemory(keys[i], now);
        r := r[keys[i] := v];
        assert keys[..i + 1] == keys[..i] + [keys[i]];
        i := i + 1;
      }
      assert keys[..|keys|] == keys;
    }

    /** `set_many`: every pair is written with `ttl or default_ttl`; other keys are untouched. */
    method SetMany(mapping: map<string, string>, ttl: int, now: int) returns (ok: bool)
      modifies this
      ensures ok
      ensures store == old(store) + Written(mapping, mapping.Keys, ExpiryFor(EffectiveTtl(ttl, defaultTtl), now))
    {
      var t := if ttl != 0 then ttl else defaultTtl;
      ghost var exp := ExpiryFor(t, now);
      var todo := mapping.Keys;
      while todo != {}
        invariant todo <= mapping.Keys
        invariant store == old(store) + Written(mapping, mapping.Keys - todo, exp)
        decreases |todo|
      {
        var k :| k in todo;
        TakeOne(mapping.Keys, todo, k);
        WrittenStep(old(store), mapping, mapping.Keys - todo, k, exp);
        var _ := SetMemory(k, mapping[k], t, now);
        todo := todo - {k};
      }
      return true;
    }

    /** `delete_pattern`: removes every stored key the pattern matches, live or expired, and
        returns how many there were. */
    method DeletePattern(pattern: string) returns (deleted: nat)
      modifies this
      ensures deleted == |Matching(old(store), pattern)|
      ensures store == old(store) - Matching(old(store), pattern)
    {
      var keys := Matching(store, pattern);
      ghost var all := keys;
      deleted := 0;
      while keys != {}
        invariant keys <= all
        invariant deleted == |all - keys|
        invariant store == old(store) - (all - keys)
        decreases |keys|
      {
        var k :| k in keys;
        TakeOne(all, keys, k);
        RemoveStep(old(store), all - keys, k);
        var d := DeleteMemory(k);
        if d {
          deleted := deleted + 1;
        }
        keys := keys - {k};
      }
    }

    /** `invalidate_user_sessions` */
    method InvalidateUserSessions(userId: string) returns (deleted: nat)
      modifies this
      ensures deleted == |Matching(old(store), UserSessionsPattern(userId))|
      ensures store == old(store) - Matching(old(store), UserSessionsPattern(userId))
    {
      deleted := DeletePattern(UserSessionsPattern(userId));
    }

    /** `get_session` / `get_user_paths`: a cached truthy value decoded by `decode` (the JSON
        parser); a value that does not decode is deleted. */
    method GetDecoded(key: string, decode: string -> Option<Json.Value>, now: int) returns (r: Option<Json.Value>)
      modifies this
      ensures var v := Read(old(store), key, now);
        r == (if v.None? || v.value == "" then None else decode(v.value))
      ensures var v := Read(old(store), key, now);
        store == (if v.Some? && v.value != "" && decode(v.value).None? then old(store) - {key}
                  else AfterRead(old(store), key, now))
    {
      var cached := Get(key, now);
      if cached.Some? {
        r := decode(cached.value);
        if r.None? {
          var _ := Delete(key);
        }
      } else {
        r := None;
      }
    }

    /** `set_user_paths`: the encoded paths are cached for `ttl or 3600` seconds. */
    method SetUserPaths(userId: string, encoded: string, ttl: int, now: int) returns (ok: bool)
      modifies this
      ensures ok
      ensures store == old(store)[UserPathsCacheKey(userId) :=
        Entry(encoded, ExpiryFor(EffectiveTtl(EffectiveTtl(ttl, 3600), defaultTtl), now))]
    {
      var t := if ttl != 0 then ttl else 3600;
      ok := Set(UserPathsCacheKey(userId), encoded, t, false, false, now);
    }
  }
}
