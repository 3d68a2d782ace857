/**
  `HasuraStore`: a TTL key/value cache store whose rows live in the remote
  table `cache`, reached only through GraphQL documents. The network round
  trip (`hasuraQuery`) is replaced by the table effect each document
  declares (module Documents); the wall clock is a parameter `now` in
  milliseconds.
*/
module Hasura {
  import opened Wrappers
  import opened SqlLike
  import opened Expiry
  import opened Documents

  const DefaultUri: string := "http://localhost:3001/v1/graphql"
  /** The configured default TTL when none (or a falsy one) is given. */
  const DefaultTtl: int := 60 * 1000
  const StoreName: string := "hasura"
  const TableName: string := "cache"
  const ExpireColumn: string := "expiresAt"
  /** The backend's match-all pattern. */
  const MatchAll: string := "%"

  /** `args.options`: only the fields the store reads. */
  datatype Options = Options(ttl: Option<int>, compression: Option<bool>, secret: Option<string>)

  /** Constructor argument `args`. */
  datatype Args = Args(uri: Option<string>, options: Option<Options>)

  /** Per-call `options` of `set`. */
  datatype SetOptions = SetOptions(ttl: Option<int>, compressed: bool)

  /** What `get` hands to its callback. */
  datatype Lookup =
    | Miss                          // `cb()`: no value
    | Hit(value: string)            // `cb(null, data.value)`
    | HitCompressed(stored: string) // `cb(null, store.decompress(data.value))`; the codec is not modelled

  /** The row `insert_cache_one` returns to `set`'s callback. */
  datatype Entry = Entry(key: string, value: string, compressed: bool, expiresAt: int)

  /** The exceptions `set` throws before any request is sent; each rejects its promise. */
  datatype SetError =
    | OptionsMissing  // `options.ttl` on `undefined` options: TypeError
    | InvalidDate     // `toISOString()` of an expiry outside the Date range: RangeError

  /** How `set` completes. */
  datatype SetResult =
    | Stored(entry: Entry)     // the mutation ran; `cb(null, insert_cache_one)`
    | NotStored                // the backend refused the variables; `cb(null, undefined)`, nothing ran
    | Thrown(error: SetError)  // `cb(err)`; no request was sent

  /** A JavaScript Date holds time values within 8.64e15 ms of the epoch. */
  const MaxDateMillis: int := 8_640_000_000_000_000

  predicate InDateRange(millis: int) {
    -MaxDateMillis <= millis <= MaxDateMillis
  }

  /** A JavaScript value, as far as `isCacheableValue` and truthiness can tell apart. */
  datatype JsValue = Undefined | Null | Boolean(b: bool) | Number(n: int) | Text(s: string) | Object

  predicate Truthy(v: JsValue) {
    match v
    case Boolean(b) => b
    case Number(n) => n != 0
    case Text(s) => s != ""
    case Object => true
    case _ => false
  }

  /** `(args.uri) ? args.uri : 'http://localhost:3001/v1/graphql'`. */
  function ConfiguredUri(uri: Option<string>): (r: string)
    ensures r != ""
    ensures uri.Some? && uri.value != "" ==> r == uri.value
    ensures uri.None? || uri.value == "" ==> r == DefaultUri
  {
    if uri.Some? && uri.value != "" then uri.value else DefaultUri
  }

  /** `store.options.ttl`: a falsy (absent or zero) TTL becomes `60 * 1000`. */
  function ConfiguredTtl(options: Option<Options>): (r: int)
    ensures r != 0
    ensures options.Some? && options.value.ttl.Some? && options.value.ttl.value != 0 ==>
              r == options.value.ttl.value
    ensures options.None? || options.value.ttl.None? || options.value.ttl.value == 0 ==>
              r == DefaultTtl
  {
    TtlOr(if options.Some? then options.value.ttl else None, DefaultTtl)
  }

  /** `store.options.compression || false`. */
  function ConfiguredCompression(options: Option<Options>): (r: bool)
    ensures r <==> options.Some? && options.value.compression == Some(true)
  {
    options.Some? && options.value.compression.Some? && options.value.compression.value
  }

  /** `if (!pattern || pattern === '*') pattern = '%'`, in both `keys` and `reset`. */
  function NormalisePattern(pattern: Option<string>): (r: string)
    ensures r != "" && r != "*"
    ensures pattern.None? || pattern.value == "" || pattern.value == "*" ==> r == MatchAll
    ensures pattern.Some? && pattern.value != "" && pattern.value != "*" ==> r == pattern.value
  {
    if pattern.None? || pattern.value == "" || pattern.value == "*" then MatchAll else pattern.value
  }

  /** `if (affected_rows) return cb(null, true); return cb(null, false)`. */
  function AffectedToBool(affectedRows: Option<int>): (r: bool)
    ensures r <==> affectedRows.Some? && affectedRows.value != 0
  {
    match affectedRows
    case None => false
    case Some(n) => n != 0
  }

  /** `response?.data?.cache[0] || null`. */
  function FirstRow(rows: seq<Row>): (r: Option<Row>)
    ensures r.None? <==> rows == []
    ensures r.Some? ==> r.value == rows[0]
  {
    if rows == [] then None else Some(rows[0])
  }

  /**
    What `get(key)` yields against table `t` at time `now`: the stored value
    of the row for `key` when it passes the `_gte` filter, else no value.
    The client-side recheck `data.expiresAt < (new Date())` compares an ISO
    string with a Date, which is always false in JavaScript, so it never
    turns a row into a miss and does not appear here.
  */
  function Read(t: Table, key: string, now: int): (v: Lookup)
    ensures v == Miss <==> !(key in t && IsLive(t[key].expiresAt, now))
    ensures v.Hit? ==> key in t && !t[key].compressed && v.value == t[key].value
    ensures v.HitCompressed? ==> key in t && t[key].compressed && v.stored == t[key].value
  {
    match FirstRow(SelectLive(t, key, now))
    case None => Miss
    case Some(row) => if row.compressed then HitCompressed(row.value) else Hit(row.value)
  }

  /**
    The outcome of `set(key, val, options)` with default TTL `storeTtl` and
    clock reading `now`, before the table is touched:
    - omitted `options` make `options.ttl` throw;
    - an expiry outside the Date range makes `toISOString()` throw;
    - otherwise the request is sent, and the backend refuses it unless
      `$value: String!` receives a string: a non-string value, or the
      promise that `compress` returns when `options.compressed` is set
      (`compress` always rejects: a string is no Buffer and zlib is never
      loaded), makes the whole mutation fail, so nothing is deleted or
      written and `insert_cache_one` is undefined.
  */
  function SetRequest(key: string, val: JsValue, options: Option<SetOptions>, storeTtl: int, now: int): (r: SetResult)
    ensures r == Thrown(OptionsMissing) <==> options.None?
    ensures r == Thrown(InvalidDate) <==>
              options.Some? && !InDateRange(ExpiresAt(now, options.value.ttl, storeTtl))
    ensures r.Stored? <==>
              options.Some? && InDateRange(ExpiresAt(now, options.value.ttl, storeTtl))
              && val.Text? && !options.value.compressed
    ensures r.Stored? ==>
              r.entry == Entry(key, val.s, false, ExpiresAt(now, options.value.ttl, storeTtl))
  {
    if options.None? then Thrown(OptionsMissing)
    else
      var expiresAt := ExpiresAt(now, options.value.ttl, storeTtl);
      if !InDateRange(expiresAt) then Thrown(InvalidDate)
      else if options.value.compressed || !val.Text? then NotStored
      else Stored(Entry(key, val.s, false, expiresAt))
  }

  /** The table after a `set` that completed with `r`, its cleanup timestamp being `purgeAt`. */
  function AfterSet(t: Table, r: SetResult, purgeAt: int): (t': Table)
    ensures !r.Stored? ==> t' == t
    ensures r.Stored? ==> t' == CacheSet(t, r.entry.key, Row(r.entry.value, r.entry.compressed, r.entry.expiresAt), purgeAt)
  {
    if r.Stored? then CacheSet(t, r.entry.key, Row(r.entry.value, r.entry.compressed, r.entry.expiresAt), purgeAt)
    else t
  }

  /** `isCacheableValue(value)`: `value !== null && value !== undefined`. */
  function IsCacheableValue(v: JsValue): (r: bool)
    ensures !r <==> v == Undefined || v == Null
    ensures Truthy(v) ==> r
  {
    !v.Undefined? && !v.Null?
  }

  class HasuraStore {
    const uri: string
    /** `store.options.ttl`, the default TTL of `set`. */
    const ttl: int
    const compression: bool
    const secret: Option<string>
    const name: string
    const coll: string
    const expireKey: string
    /** The remote `cache` table. */
    var table: Table

    /** `new HasuraStore(args)` against a remote table whose rows are `remote`. */
    constructor (args: Args, remote: Table)
      ensures args.uri.None? || args.uri.value == "" ==> uri == DefaultUri
      ensures args.uri.Some? && args.uri.value != "" ==> uri == args.uri.value
      ensures ttl == ConfiguredTtl(args.options) && ttl != 0
      ensures compression == ConfiguredCompression(args.options)
      ensures secret == (if args.options.Some? then args.options.value.secret else None)
      ensures name == StoreName && coll == TableName && expireKey == ExpireColumn
      ensures table == remote
    {
      uri := ConfiguredUri(args.uri);
      var options := if args.options.Some? then args.options.value else Options(None, None, None);
      ttl := ConfiguredTtl(Some(options));
      compression := ConfiguredCompression(Some(options));
      secret := options.secret;
      name := StoreName;
      coll := TableName;
      expireKey := ExpireColumn;
      table := remote;
    }

    /** `get(key)`: query cacheGet, then map the first returned row (see Read). */
    method Get(key: string, now: int) returns (v: Lookup)
      ensures v == Read(table, key, now)
      ensures v == Miss <==> !(key in table && IsLive(table[key].expiresAt, now))
    {
      v := Read(table, key, now);
    }

    /** `keys(pattern)`: query cacheKeys, then `.map((value) => value.key)`. */
    method Keys(pattern: Option<string>, now: int) returns (keys: seq<string>)
      ensures forall k :: k in keys <==> k in table && Like(NormalisePattern(pattern), k) && IsLive(table[k].expiresAt, now)
      ensures forall i, j :: 0 <= i < j < |keys| ==> keys[i] != keys[j]
      ensures |keys| == |SelectKeys(table, NormalisePattern(pattern), now)|
    {
      var p := NormalisePattern(pattern);
      var selected := SelectKeys(table, p, now);
      keys := ReturnedRows(selected);
    }

    /**
      `set(key, val, options)`: the expiry is computed from the clock reading
      `now` (index.js:211), the cleanup uses a second reading `purgeAt`
      (`currentTimestamp`, index.js:221). When the request is accepted,
      mutation cacheSet runs its two fields in order; otherwise the table
      is untouched.
    */
    method Set(key: string, val: JsValue, options: Option<SetOptions>, now: int, purgeAt: int) returns (r: SetResult)
      modifies this
      ensures r == SetRequest(key, val, options, ttl, now)
      ensures table == AfterSet(old(table), r, purgeAt)
    {
      r := SetRequest(key, val, options, ttl, now);
      if r.Stored? {
        var row := Row(r.entry.value, r.entry.compressed, r.entry.expiresAt);
        table := DeleteExpired(table, purgeAt);
        table := InsertOne(table, key, row);
      }
    }

    /** `del(key)`: mutation cacheDel by exact key; true iff `affected_rows` is truthy. */
    method Del(key: string) returns (removed: bool)
      modifies this
      ensures table == DeleteByKey(old(table), key).table
      ensures removed <==> key in old(table)
    {
      var d := DeleteByKey(table, key);
      table := d.table;
      removed := AffectedToBool(Some(d.affectedRows));
    }

    /** `reset(pattern)`: delete by `_like`; resolves to true whatever `affected_rows` is. */
    method Reset(pattern: Option<string>) returns (ok: bool)
      modifies this
      ensures table == DeleteLike(old(table), NormalisePattern(pattern)).table
      ensures ok
    {
      var d := DeleteLike(table, NormalisePattern(pattern));
      table := d.table;
      ok := true;
    }
  }
}
