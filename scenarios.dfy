/**
  Client methods that replay the store's own test cases against the class's
  contracts alone, each starting from an arbitrary remote table. Calls that
  the tests issue concurrently are issued in sequence here, and the clock
  readings of one scenario are a single `now` unless a test waits.
*/
module Scenarios {
  import opened Wrappers
  import opened Expiry
  import opened Documents
  import opened Hasura
  import Properties

  /** A present-day clock reading: the longest TTL the tests use keeps the expiry a valid Date. */
  predicate ClockReading(now: int) {
    0 <= now <= MaxDateMillis - 60000 * MillisPerTtlUnit
  }

  function TestArgs(): Args {
    Args(Some("http://localhost:8080/v1/graphql"), Some(Options(None, None, None)))
  }

  /** A value written with a 1-second TTL is gone once 5 seconds have passed. */
  method CheckExpiry(remote: Table, now: int, later: int) returns (v: Lookup)
    requires ClockReading(now)
    requires later >= now + 5000
    ensures v == Miss
  {
    var s := new HasuraStore(TestArgs(), remote);
    var _ := s.Set("test-cookie-1", Text("test-user"), Some(SetOptions(Some(1), false)), now, now);
    v := s.Get("test-cookie-1", later);
  }

  /** A value written with a 10-second TTL is read back at once. */
  method CheckGet(remote: Table, now: int) returns (v: Lookup)
    requires ClockReading(now)
    ensures v == Hit("test-user")
  {
    var s := new HasuraStore(TestArgs(), remote);
    var _ := s.Set("test-cookie-3", Text("test-user"), Some(SetOptions(Some(10), false)), now, now);
    v := s.Get("test-cookie-3", now);
  }

  /** A deleted key reads as no value; deleting it again reports false. */
  method CheckDel(remote: Table, now: int) returns (first: bool, v: Lookup, second: bool)
    requires ClockReading(now)
    ensures first && v == Miss && !second
  {
    var s := new HasuraStore(TestArgs(), remote);
    var _ := s.Set("test-cookie-4", Text("test-user"), Some(SetOptions(Some(10000), false)), now, now);
    first := s.Del("test-cookie-4");
    v := s.Get("test-cookie-4", now);
    second := s.Del("test-cookie-4");
  }

  /** Overwriting a key replaces its value. */
  method CheckOverwrite(remote: Table, now: int) returns (v: Lookup)
    requires ClockReading(now)
    ensures v == Hit("y")
  {
    var s := new HasuraStore(TestArgs(), remote);
    var _ := s.Set("a", Text("x"), Some(SetOptions(Some(10), false)), now, now);
    var _ := s.Set("a", Text("y"), Some(SetOptions(Some(10), false)), now, now);
    v := s.Get("a", now);
  }

  /** After three writes and `reset()`, `keys()` is empty. */
  method CheckReset(remote: Table, now: int) returns (keys: seq<string>)
    requires ClockReading(now)
    ensures keys == []
  {
    var s := new HasuraStore(TestArgs(), remote);
    var _ := s.Set("test-cookie-3", Text("test-cookie-3"), Some(SetOptions(Some(60000), false)), now, now);
    var _ := s.Set("test-cookie-2", Text("test-cookie-2"), Some(SetOptions(Some(60000), false)), now, now);
    var _ := s.Set("test-user", Text("test-user"), Some(SetOptions(Some(60000), false)), now, now);
    var ok := s.Reset(None);
    keys := s.Keys(None, now);
  }

  /** On a cleared table, three writes make `keys()` list exactly those three keys. */
  method CheckKeys(remote: Table, now: int) returns (keys: seq<string>)
    requires ClockReading(now)
    ensures |keys| == 3
    ensures forall k :: k in keys <==> k in {"test-cookie-3", "test-cookie-2", "test-user"}
  {
    var s := new HasuraStore(TestArgs(), remote);
    var _ := s.Reset(None);
    Properties.ResetAllEmptiesTable(remote, None);
    assert SelectKeys(s.table, MatchAll, now) == {};
    Write(s, "test-cookie-3", now);
    Write(s, "test-cookie-2", now);
    Write(s, "test-user", now);
    keys := s.Keys(None, now);
  }

  /** `set(key, key, {ttl: 60000})` at `now`: `keys()` at `now` gains exactly `key`. */
  method Write(s: HasuraStore, key: string, now: int)
    requires ClockReading(now)
    modifies s
    ensures SelectKeys(s.table, MatchAll, now) == SelectKeys(old(s.table), MatchAll, now) + {key}
  {
    ghost var before := s.table;
    var w := s.Set(key, Text(key), Some(SetOptions(Some(60000), false)), now, now);
    SqlLike.PercentMatchesEverything(key);
    Properties.KeysAfterSet(before, key, Row(key, false, w.entry.expiresAt), MatchAll, now);
  }
}
