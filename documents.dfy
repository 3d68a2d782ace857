/**
  The remote `cache` table and the effect that each GraphQL document of the
  store declares on it. The table is a map from the primary key `key` to the
  other columns, so the primary-key constraint `cache_pkey` holds by
  construction.
*/
module Documents {
  import opened SqlLike
  import opened Expiry

  /** The non-key columns of a row of `cache`. */
  datatype Row = Row(value: string, compressed: bool, expiresAt: int)

  type Table = map<string, Row>

  /** A `delete_cache` mutation: the remaining table and its `affected_rows`. */
  datatype Deletion = Deletion(table: Table, affectedRows: nat)

  /** query cacheGet: `key: { _eq: $key }, expiresAt: { _gte: $currentTimestamp }`. */
  function SelectLive(t: Table, key: string, now: int): (rows: seq<Row>)
    ensures |rows| <= 1
    ensures rows != [] <==> key in t && IsLive(t[key].expiresAt, now)
    ensures rows != [] ==> key in t && rows[0] == t[key]
  {
    if key in t && IsLive(t[key].expiresAt, now) then [t[key]] else []
  }

  /** query cacheKeys: `key: { _like: $pattern }, expiresAt: { _gte: $currentTimestamp }`, projected on `key`. */
  function SelectKeys(t: Table, pattern: string, now: int): (keys: set<string>)
    ensures keys <= t.Keys
    ensures forall k :: k in keys <==> k in t && Like(pattern, k) && IsLive(t[k].expiresAt, now)
  {
    set k | k in t && Like(pattern, k) && IsLive(t[k].expiresAt, now)
  }

  /**
    First field of mutation cacheSet:
    `delete_cache(where: { expiresAt: { _lt: $currentTimestamp } })`.
    It keeps exactly the rows that the `_gte` read filter would return.
  */
  function DeleteExpired(t: Table, now: int): (kept: Table)
    ensures forall k :: k in kept <==> k in t && IsLive(t[k].expiresAt, now)
    ensures forall k :: k in kept ==> kept[k] == t[k]
  {
    map k | k in t && !IsExpired(t[k].expiresAt, now) :: t[k]
  }

  /**
    Second field of mutation cacheSet: `insert_cache_one` with
    `on_conflict: {constraint: cache_pkey, update_columns: [value, compressed, expiresAt]}`.
    The update columns are all the non-key columns, so a conflicting row is
    replaced whole and no second row for `key` appears.
  */
  function InsertOne(t: Table, key: string, row: Row): (t': Table)
    ensures t'.Keys == t.Keys + {key}
    ensures t'[key] == row
    ensures forall k :: k in t && k != key ==> t'[k] == t[k]
    ensures |t'| == if key in t then |t| else |t| + 1
  {
    t[key := row]
  }

  /** mutation cacheSet as a whole: the cleanup, then the upsert, in one request. */
  function CacheSet(t: Table, key: string, row: Row, purgeAt: int): (t': Table)
    ensures key in t' && t'[key] == row
    ensures forall k :: k != key ==> (k in t' <==> k in t && IsLive(t[k].expiresAt, purgeAt))
    ensures forall k :: k in t' && k != key ==> t'[k] == t[k]
  {
    InsertOne(DeleteExpired(t, purgeAt), key, row)
  }

  /** mutation cacheDel: `delete_cache(where: { key: { _eq: $key } })`. */
  function DeleteByKey(t: Table, key: string): (d: Deletion)
    ensures d.table.Keys == t.Keys - {key}
    ensures forall k :: k in d.table ==> d.table[k] == t[k]
    ensures d.affectedRows == |t| - |d.table|
    ensures d.affectedRows > 0 <==> key in t
  {
    var rest := t - {key};
    assert rest.Keys == t.Keys - {key};
    Deletion(rest, if key in t then 1 else 0)
  }

  /** mutation of `reset`: `delete_cache(where: { key: { _like: $pattern } })`, expired or not. */
  function DeleteLike(t: Table, pattern: string): (d: Deletion)
    ensures forall k :: k in d.table <==> k in t && !Like(pattern, k)
    ensures forall k :: k in d.table ==> d.table[k] == t[k]
    ensures d.affectedRows == |t| - |d.table|
  {
    var matched := set k | k in t && Like(pattern, k);
    var rest := t - matched;
    assert rest.Keys == t.Keys - matched;
    Deletion(rest, |matched|)
  }

  /**
    The rows of a query result, in whatever order the backend returns them.
    The order is the backend's choice and is left open (`:|`); the result
    lists every selected key exactly once.
  */
  method ReturnedRows(selected: set<string>) returns (keys: seq<string>)
    ensures |keys| == |selected|
    ensures forall k :: k in keys <==> k in selected
    ensures forall i, j :: 0 <= i < j < |keys| ==> keys[i] != keys[j]
  {
    keys := [];
    var rest := selected;
    while rest != {}
      invariant rest <= selected
      invariant forall k :: k in keys <==> k in selected && k !in rest
      invariant forall i, j :: 0 <= i < j < |keys| ==> keys[i] != keys[j]
      invariant |keys| + |rest| == |selected|
      decreases rest
    {
      var k :| k in rest;
      keys := keys + [k];
      rest := rest - {k};
    }
  }
}
