/**
  The `_like` filter of the `cache` table is evaluated by the GraphQL backend
  (PostgreSQL's LIKE). The repository does not implement it; this module is
  an assumed stand-in for the backend: `%` matches any run of characters,
  `_` matches exactly one character, every other character matches itself,
  and no escape character is recognised.
*/
module SqlLike {

  predicate Like(pattern: string, key: string)
    decreases |pattern| + |key|
  {
    if pattern == [] then key == []
    else if pattern[0] == '%' then
      Like(pattern[1..], key) || (key != [] && Like(pattern, key[1..]))
    else if key == [] then false
    else (pattern[0] == '_' || pattern[0] == key[0]) && Like(pattern[1..], key[1..])
  }

  /** A pattern without wildcards. */
  predicate IsLiteral(pattern: string) {
    forall i :: 0 <= i < |pattern| ==> pattern[i] != '%' && pattern[i] != '_'
  }

  /** The only fact the store relies on: `%` selects every key. */
  lemma {:induction false} PercentMatchesEverything(key: string)
    ensures Like("%", key)
  {
    if key != [] {
      PercentMatchesEverything(key[1..]);
    }
  }

  /** A pattern without wildcards selects exactly the key spelled like it. */
  lemma {:induction false} LiteralMatchesOnlyItself(pattern: string, key: string)
    requires IsLiteral(pattern)
    ensures Like(pattern, key) <==> key == pattern
  {
    if pattern != [] && key != [] {
      LiteralMatchesOnlyItself(pattern[1..], key[1..]);
      assert key == [key[0]] + key[1..];
      assert pattern == [pattern[0]] + pattern[1..];
    }
  }

  /** `prefix%` (a key namespace) selects exactly the keys that start with `prefix`. */
  lemma {:induction false} PrefixPatternMatchesExtensions(prefix: string, key: string)
    requires IsLiteral(prefix)
    ensures Like(prefix + "%", key) <==> prefix <= key
  {
    if prefix == [] {
      assert prefix + "%" == "%";
      PercentMatchesEverything(key);
    } else if key != [] {
      assert (prefix + "%")[1..] == prefix[1..] + "%";
      PrefixPatternMatchesExtensions(prefix[1..], key[1..]);
    }
  }
}
