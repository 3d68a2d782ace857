# HasuraStore cache store — a Dafny model

This project models `HasuraStore`, a TTL key/value store used as a storage
driver under a generic caching layer. Its rows live in a remote table named
`cache` (columns `key`, `value`, `compressed`, `expiresAt`) that the store
reaches only through GraphQL documents. Each document declares exactly how a
call reads or changes the table, and those declared effects are the heart of
the model:

- `get` selects the row with `key _eq $key` and `expiresAt _gte now`;
- `keys` selects the keys with `key _like $pattern` and `expiresAt _gte now`;
- `set` is one compound mutation: delete every row with `expiresAt _lt now`,
  then `insert_cache_one` with an upsert on the primary key `cache_pkey`;
- `del` deletes by exact key and reports whether `affected_rows` was non-zero;
- `reset` deletes by `_like` pattern, expired or not, and always reports true.

Files and modules:

- `wrappers.dfy` (`Wrappers`): `Option`, standing for JavaScript's absent values.
- `sql_like.dfy` (`SqlLike`): `Like(pattern, key)`, an assumed stand-in for the
  backend's `_like`: `%` matches any run of characters, `_` one character,
  and the stand-in recognises no escape character. It is not repository code; the store itself relies only on `%`
  matching every key.
- `expiry.dfy` (`Expiry`): the liveness test `expiresAt >= now` of the reads, its
  complement `expiresAt < now` used by the cleanup, and the expiry arithmetic.
- `documents.dfy` (`Documents`): the table as `map<string, Row>` (the map gives
  the primary-key constraint), and the effect of each GraphQL document as a
  function on it.
- `hasura.dfy` (`Hasura`): the configuration defaults, pattern normalisation,
  response mapping, `isCacheableValue`, and the class `HasuraStore` whose
  `table` field stands for the remote table; `Set`, `Del` and `Reset` update it,
  `Get` and `Keys` only read it.
- `properties.dfy` (`Properties`): lemmas relating operations.
- `scenarios.dfy` (`Scenarios`): client methods that replay the repository's
  test cases using only the class's contracts.

Time is integer milliseconds passed in as `now`. `Set` takes two clock
readings, as the source does: `now` for the expiry (index.js:211) and
`purgeAt` for the cleanup timestamp (index.js:221).

Behaviour reproduced as the code has it:

- The TTL is multiplied by 1000 (index.js:213), so TTLs are read as seconds,
  yet the default TTL is `60 * 1000` (index.js:22): a write without a TTL
  lives 60000 seconds.
- `options.ttl || store.options.ttl`: a per-call TTL of 0 falls back to the
  default; a falsy configured TTL becomes 60000. A negative TTL is truthy and
  is kept, so such a row is already expired when written.
- The read filter is `_gte`: a row whose `expiresAt` equals `now` is still
  returned, and the cleanup (`_lt`) keeps exactly the rows the read filter
  returns.
- The client-side recheck `data.expiresAt < (new Date())` (index.js:133)
  compares an ISO string with a Date, which converts the string to NaN and is
  always false; liveness in `get` therefore rests on the server filter alone,
  and the model has no such recheck.
- `del` does not filter on expiry: deleting a key whose row has expired but is
  still in the table removes it and reports true.
- `reset` reports true whatever `affected_rows` was.
- `set` writes nothing in three cases. Omitted `options` make `options.ttl` throw
  (index.js:213). An expiry outside the JavaScript Date range makes
  `toISOString()` throw (index.js:219). A value that is not a string fails the
  declared `$value: String!` (index.js:224), so the backend refuses the whole
  mutation, cleanup included, and `set` resolves with `undefined`
  (index.js:242). The last case covers every compressed write: `compress`
  returns a promise that always rejects (a string is no Buffer, and zlib is
  never loaded), and that promise is what is sent as `$value`.

## Model

| member | source | states |
|---|---|---|
| SqlLike.Like | index.js:170 | the backend's `_like`, as an assumed stand-in that is not repository code: `%` matches any run, `_` one character, every other character itself, with no escape character (also used at index.js:317) |
| SqlLike.PercentMatchesEverything | index.js:152 | the normalised match-all pattern `%` selects every key |
| SqlLike.LiteralMatchesOnlyItself | index.js:316-318 | a pattern with no wildcard selects exactly the key spelled like it |
| SqlLike.PrefixPatternMatchesExtensions | index.js:168-175 | a namespace pattern `prefix%` selects exactly the keys that start with `prefix` |
| Expiry.IsLive | index.js:119 | the read filter `expiresAt _gte now` of `get` (and of `keys` at index.js:171): a row is returned at `now` iff it does not expire before `now` |
| Expiry.TtlOr | index.js:213 | JavaScript's or-operator on `options.ttl` and `store.options.ttl` for a numeric or absent TTL: the per-call TTL unless it is absent or 0, in which case the fallback; the result is 0 only if the fallback is (the same rule at index.js:22) |
| Expiry.IsExpired | index.js:226 | the cleanup filter `_lt now` holds exactly when the read filter `_gte now` does not |
| Expiry.ExpiresAt | index.js:211-213 | expiry is `now + ttl * 1000` for a non-zero per-call TTL and `now + default * 1000` for an absent or zero one; the row outlives `now` iff the effective TTL is positive |
| Documents.SelectLive | index.js:115-125 | query cacheGet returns at most one row: the row for `key` exactly when it is live at `now` |
| Documents.SelectKeys | index.js:167-175 | query cacheKeys returns exactly the table keys that match the pattern and are live at `now` |
| Documents.DeleteExpired | index.js:225-228 | the cleanup keeps exactly the rows that are live at its timestamp, unchanged |
| Documents.InsertOne | index.js:229-237 | the upsert sets the row for `key`, leaves other rows unchanged, and grows the table only when `key` was absent |
| Documents.CacheSet | index.js:223-238 | after mutation cacheSet the table holds the new row for `key`, and another key stays iff it was live at the cleanup timestamp, with its row unchanged |
| Documents.DeleteByKey | index.js:273-278 | delete by key removes only `key`; `affected_rows` is the number of removed rows, non-zero iff `key` was present |
| Documents.DeleteLike | index.js:315-320 | delete by pattern removes exactly the matching keys, expired or not; `affected_rows` is the number of removed rows |
| Documents.ReturnedRows | index.js:178-179 | the key list of a query result holds every selected key exactly once, in an order left to the backend |
| Hasura.ConfiguredUri | index.js:20 | an absent or empty `uri` becomes `http://localhost:3001/v1/graphql`, any other is kept |
| Hasura.ConfiguredTtl | index.js:21-22 | an absent or zero configured TTL becomes `60 * 1000`, any other is kept; the result is never 0 |
| Hasura.ConfiguredCompression | index.js:27 | `compression` is true only when the option is set to true |
| Hasura.NormalisePattern | index.js:152 | a missing, empty or `*` pattern becomes `%`, any other passes unchanged (same rule at index.js:306); the result is never empty or `*` |
| Hasura.AffectedToBool | index.js:281-286 | `del` reports true iff `affected_rows` is present and non-zero |
| Hasura.FirstRow | index.js:128-129 | `response?.data?.cache[0]` or null: no row for an empty result, else the first row |
| Hasura.Read | index.js:128-136 | `get` yields no value iff no live row for `key`, else the stored value, flagged when the row is compressed |
| Hasura.SetRequest | index.js:211-242 | `set` throws for omitted options and for an expiry outside the Date range; otherwise it stores iff the value is a string and the write is uncompressed, and the stored entry carries the value, `compressed` false and the computed expiry |
| Hasura.AfterSet | index.js:223-242 | a `set` that stored runs cleanup-then-upsert on the table; any other outcome leaves the table unchanged |
| Hasura.IsCacheableValue | index.js:332-334 | a value is cacheable iff it is neither `null` nor `undefined`; every truthy value is cacheable |
| Hasura.HasuraStore.constructor | index.js:18-29 | the defaults for `uri`, `ttl` and `compression`; name `hasura`, table `cache`, expiry column `expiresAt` |
| Hasura.HasuraStore.Get | index.js:99-138 | `get` returns `Read` of the current table: a miss exactly when no live row exists |
| Hasura.HasuraStore.Keys | index.js:149-183 | `keys` returns each live key matching the normalised pattern exactly once, and nothing else |
| Hasura.HasuraStore.Set | index.js:195-246 | `set` completes as `SetRequest` says (stored entry, refused request, or thrown error), and the table becomes the cleanup-then-upsert of the old one only when the entry was stored |
| Hasura.HasuraStore.Del | index.js:257-288 | `del` removes only `key` and returns true iff a row for `key` was present |
| Hasura.HasuraStore.Reset | index.js:298-330 | `reset` removes exactly the keys matching the normalised pattern and returns true |
| Properties.CleanupAgreesWithRead | index.js:226 | the cleanup keeps a row iff `get` at the same timestamp would return it (read filter at index.js:119), and never changes what `get` returns |
| Properties.CleanupPreservesKeys | index.js:225-228 | the cleanup never changes what `keys` lists at the same timestamp |
| Properties.CleanupIdempotent | index.js:226 | a second cleanup at the same timestamp removes nothing |
| Properties.SetLeavesOnlyLiveRows | index.js:223-238 | after `set`, every row other than the written key is live at the cleanup timestamp |
| Properties.UpsertReplaces | index.js:230-232 | a second `set` of a key at the same timestamp keeps the same key set and row count and holds the new row, whether or not the first row was still live |
| Properties.GetAfterSet | test/index.js:41-50 | `set(k, v, {ttl})` then `get(k)` at the same timestamp yields `v` for a string `v`, an uncompressed write, a positive effective TTL and an expiry within the Date range |
| Properties.GetWithinTtl | test/index.js:29-39 | a stored string is returned by `get` exactly up to `now + ttl * 1000` and is a miss after |
| Properties.CacheableYetNotStored | index.js:215-224 | a value `isCacheableValue` admits but that is not a string, or any compressed write, is not stored and leaves the table unchanged |
| Properties.DelThenGetAndDelAgain | test/index.js:52-63 | after `del(k)`, `get(k)` is a miss; `del` reports true iff `k` was present, and a second `del(k)` reports false |
| Properties.KeysMatchAllIsEveryLiveKey | index.js:152-175 | `keys()`, `keys('')` and `keys('*')` list exactly the live keys |
| Properties.ResetThenKeysEmpty | test/index.js:66-81 | after `reset(p)`, `keys(p)` is empty at any timestamp |
| Properties.ResetAllEmptiesTable | index.js:306-318 | `reset()` and `reset('*')` remove every row, expired or not |
| Properties.KeysAfterSet | index.js:223-238 | a `set` of a key live at `now` adds exactly that key to `keys(p)` at `now` when it matches `p`, and nothing else |
| Scenarios.CheckExpiry | test/index.js:29-39 | a value set with a 1-second TTL is a miss 5 seconds later |
| Scenarios.CheckGet | test/index.js:41-50 | a value set with a 10-second TTL is read back |
| Scenarios.CheckDel | test/index.js:52-63 | `del` of a set key reports true, `get` then misses, and a second `del` reports false |
| Scenarios.CheckOverwrite | index.js:229-232 | two writes of one key: `get` returns the second value |
| Scenarios.CheckReset | test/index.js:66-81 | three writes, then `reset()`: `keys()` is empty |
| Scenarios.CheckKeys | test/index.js:83-96 | on a cleared table, three writes make `keys()` list exactly those three keys |

## Left out

- `hasuraQuery` (index.js:38-50): the HTTP POST, JSON encoding and the admin-secret header are network I/O; each document is replaced by its table effect. The configured `secret` is recorded but not used.
- Transport failures and backend `errors` payloads: apart from the refused `set` above, every operation is modelled on a successful round trip. In the source a failed fetch rejects, and a missing `data` makes `get` miss, `keys` return `[]`, `set` return `undefined`, `del` return false.
- The dual callback/promise calling convention and the `create` factory: JavaScript ergonomics with no effect on the table.
- `compress` and `decompress` (index.js:58-87): they wrap zlib, which the file never loads; `compressed` is carried only as a flag in the row.
- Hasura.HasuraStore.Get: for a compressed row (written by another client, since this store's compressed writes never reach the table) it returns the stored value flagged `HitCompressed` instead of the result of `decompress`, which always fails: `decompress` calls `zlib.gunzip` (index.js:81) and zlib is never loaded, so the source's promise-style `get` of a compressed row rejects.
- Hasura.HasuraStore.Set: the backend's refusal is modelled only for values that are not strings; other refusals (an over-long value, a key the schema rejects) are not. A thrown error is reported through the result, whether the source throws it to the caller or rejects the promise.
- The wall clock and ISO-8601 timestamps: time is an integer millisecond count passed in.
- Fractional TTLs (such as the `0.1` a test configures): TTLs are integers.
- Backend behaviour beyond the declared filters: atomicity of the compound mutation, concurrency between calls, the order of `keys` results (left open), LIKE escape characters.
- The constructor's side effects on the caller's `options` object (it writes `ttl` and `promiseLibrary` into it) and the global `Promise` replacement: aliasing of the argument is not modelled.
- Hasura.HasuraStore.constructor: an absent `args` (`create()`, or `args` undefined or null) makes `args.uri` throw a TypeError at index.js:20; the model's constructor always receives an `Args` and does not model that failure.
- The configured `compression` flag is recorded by the constructor but, as in the source, nothing reads it.
