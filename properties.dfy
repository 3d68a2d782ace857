/**
  Properties of the store's table effects that relate several operations:
  the read filter and the cleanup agree on the liveness boundary, the upsert
  replaces rather than duplicates, and the round trips the store promises
  (set then get, del then get, reset then keys).
*/
module Properties {
  import opened Wrappers
  import opened SqlLike
  import opened Expiry
  import opened Documents
  import opened Hasura

  /** Cleanup at `now` keeps a row exactly when `get` at `now` would return it. */
  lemma CleanupAgreesWithRead(t: Table, key: string, now: int)
    ensures key in DeleteExpired(t, now) <==> Read(t, key, now) != Miss
    ensures Read(DeleteExpired(t, now), key, now) == Read(t, key, now)
  {
  }

  /** Cleanup never hides a key from `keys` at the same timestamp. */
  lemma {:induction false} CleanupPreservesKeys(t: Table, pattern: string, now: int)
    ensures SelectKeys(DeleteExpired(t, now), pattern, now) == SelectKeys(t, pattern, now)
  {
    var t' := DeleteExpired(t, now);
    forall k
      ensures k in SelectKeys(t', pattern, now) <==> k in SelectKeys(t, pattern, now)
    {
    }
  }

  /** Two cleanups at the same timestamp remove no more than one. */
  lemma {:induction false} CleanupIdempotent(t: Table, now: int)
    ensures DeleteExpired(DeleteExpired(t, now), now) == DeleteExpired(t, now)
  {
    var once := DeleteExpired(t, now);
    var twice := DeleteExpired(once, now);
    assert twice.Keys == once.Keys;
  }

  /** After `set` at `purgeAt`, every row of the table other than `key` is live at `purgeAt`. */
  lemma SetLeavesOnlyLiveRows(t: Table, key: string, row: Row, purgeAt: int)
    ensures forall k :: k in CacheSet(t, key, row, purgeAt) && k != key ==>
              IsLive(CacheSet(t, key, row, purgeAt)[k].expiresAt, purgeAt)
  {
  }

  /**
    A second `set` of the same key at the same timestamp replaces the row:
    the table keeps the same keys (no duplicate) and holds the new row.
  */
  lemma {:induction false} UpsertReplaces(t: Table, key: string, first: Row, second: Row, now: int)
    ensures var t1 := CacheSet(t, key, first, now);
            var t2 := CacheSet(t1, key, second, now);
            t2.Keys == t1.Keys && |t2| == |t1| && t2[key] == second
  {
    var t1 := CacheSet(t, key, first, now);
    var t2 := CacheSet(t1, key, second, now);
    assert t2.Keys == t1.Keys;
  }

  /**
    `set(k, v, {ttl})` followed by `get(k)` at the same timestamp yields `v`
    when `v` is a string, the write is uncompressed, the effective TTL is
    positive and the expiry is a valid Date.
  */
  lemma GetAfterSet(t: Table, key: string, val: string, options: SetOptions, storeTtl: int, now: int)
    requires !options.compressed && TtlOr(options.ttl, storeTtl) > 0
    requires InDateRange(ExpiresAt(now, options.ttl, storeTtl))
    ensures Read(AfterSet(t, SetRequest(key, Text(val), Some(options), storeTtl, now), now), key, now) == Hit(val)
  {
  }

  /**
    A stored row is readable at `later` exactly while `later` is within its
    TTL: `get` yields the value up to `expiresAt` and no value after.
  */
  lemma GetWithinTtl(t: Table, key: string, val: string, options: SetOptions, storeTtl: int, now: int, purgeAt: int, later: int)
    requires !options.compressed && InDateRange(ExpiresAt(now, options.ttl, storeTtl))
    ensures Read(AfterSet(t, SetRequest(key, Text(val), Some(options), storeTtl, now), purgeAt), key, later) ==
            if later <= now + TtlOr(options.ttl, storeTtl) * MillisPerTtlUnit then Hit(val) else Miss
  {
  }

  /**
    `isCacheableValue` admits values that `set` cannot store: a non-string
    value, or any value written with `compressed`, never reaches the table.
  */
  lemma CacheableYetNotStored(t: Table, key: string, val: JsValue, options: SetOptions, storeTtl: int, now: int, purgeAt: int)
    requires InDateRange(ExpiresAt(now, options.ttl, storeTtl))
    requires options.compressed || !val.Text?
    ensures SetRequest(key, val, Some(options), storeTtl, now) == NotStored
    ensures AfterSet(t, SetRequest(key, val, Some(options), storeTtl, now), purgeAt) == t
  {
  }

  /** After `del(k)`, `get(k)` yields no value at any time, and a second `del(k)` reports false. */
  lemma DelThenGetAndDelAgain(t: Table, key: string, now: int)
    ensures Read(DeleteByKey(t, key).table, key, now) == Miss
    ensures AffectedToBool(Some(DeleteByKey(t, key).affectedRows)) <==> key in t
    ensures !AffectedToBool(Some(DeleteByKey(DeleteByKey(t, key).table, key).affectedRows))
  {
  }

  /** `keys()` and `keys('*')` list every live key and only those. */
  lemma {:induction false} KeysMatchAllIsEveryLiveKey(t: Table, pattern: Option<string>, now: int)
    requires pattern.None? || pattern.value == "" || pattern.value == "*"
    ensures SelectKeys(t, NormalisePattern(pattern), now) == set k | k in t && IsLive(t[k].expiresAt, now)
  {
    forall k | k in t
      ensures Like(NormalisePattern(pattern), k)
    {
      PercentMatchesEverything(k);
    }
  }

  /** After `reset(pattern)`, `keys(pattern)` is empty at any time. */
  lemma ResetThenKeysEmpty(t: Table, pattern: Option<string>, now: int)
    ensures SelectKeys(DeleteLike(t, NormalisePattern(pattern)).table, NormalisePattern(pattern), now) == {}
  {
  }

  /** `reset()` and `reset('*')` remove every row, expired or not. */
  lemma {:induction false} ResetAllEmptiesTable(t: Table, pattern: Option<string>)
    requires pattern.None? || pattern.value == "" || pattern.value == "*"
    ensures DeleteLike(t, NormalisePattern(pattern)).table == map[]
  {
    var rest := DeleteLike(t, NormalisePattern(pattern)).table;
    if k :| k in rest {
      PercentMatchesEverything(k);
    }
  }

  /**
    A `set` of a key that is live at the same timestamp adds exactly that key
    to what `keys(pattern)` lists, when the key matches the pattern.
  */
  lemma {:induction false} KeysAfterSet(t: Table, key: string, row: Row, pattern: string, now: int)
    requires IsLive(row.expiresAt, now)
    ensures SelectKeys(CacheSet(t, key, row, now), pattern, now) ==
            SelectKeys(t, pattern, now) + (if Like(pattern, key) then {key} else {})
  {
    var t' := CacheSet(t, key, row, now);
    forall k
      ensures k in SelectKeys(t', pattern, now) <==>
              k in SelectKeys(t, pattern, now) + (if Like(pattern, key) then {key} else {})
    {
    }
  }
}
