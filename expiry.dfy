/**
  Expiration policy of the store: how a write turns a TTL into an absolute
  `expiresAt` (milliseconds), and the two filters on `expiresAt` that the
  GraphQL documents use against the current timestamp.
*/
module Expiry {
  import opened Wrappers

  /** `set` multiplies the TTL by this factor (index.js:213): TTLs are read as seconds. */
  const MillisPerTtlUnit: int := 1000

  /** The read filter `expiresAt: { _gte: $currentTimestamp }` of `get` and `keys`. */
  predicate IsLive(expiresAt: int, now: int) {
    now <= expiresAt
  }

  /** The cleanup filter `expiresAt: { _lt: $currentTimestamp }` of `set`. */
  function IsExpired(expiresAt: int, now: int): (r: bool)
    ensures r <==> !IsLive(expiresAt, now)
  {
    expiresAt < now
  }

  /** JavaScript's `ttl || fallback` for a TTL that is a number or absent: 0 is falsy. */
  function TtlOr(ttl: Option<int>, fallback: int): (r: int)
    ensures ttl.Some? && ttl.value != 0 ==> r == ttl.value
    ensures ttl.None? || ttl.value == 0 ==> r == fallback
    ensures r == 0 ==> fallback == 0
  {
    if ttl.Some? && ttl.value != 0 then ttl.value else fallback
  }

  /** `now + (options.ttl || store.options.ttl) * 1000`. */
  function ExpiresAt(now: int, ttl: Option<int>, fallback: int): (r: int)
    ensures ttl.Some? && ttl.value != 0 ==> r == now + ttl.value * MillisPerTtlUnit
    ensures ttl.None? || ttl.value == 0 ==> r == now + fallback * MillisPerTtlUnit
    ensures TtlOr(ttl, fallback) > 0 <==> r > now
  {
    now + TtlOr(ttl, fallback) * MillisPerTtlUnit
  }
}
