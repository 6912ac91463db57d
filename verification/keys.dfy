/**
 * The key normalizer `rzai_normalizedKey`: removes every underscore from a key
 * and lower-cases what remains. Two strings match (a dictionary key and a
 * property name) exactly when their normalized forms are equal.
 */
module Keys {

  /** An upper-case letter (ASCII). */
  predicate IsUpper(c: char) {
    'A' <= c <= 'Z'
  }

  /** Lower-cases one letter (the same letter of the alphabet); every other character is left alone. */
  function Lower(c: char): (l: char)
    ensures !IsUpper(l)
    ensures l != '_' <==> c != '_'
    ensures !IsUpper(c) ==> l == c
    ensures IsUpper(c) ==> 'a' <= l <= 'z' && l as int - 'a' as int == c as int - 'A' as int
  {
    if IsUpper(c) then (c as int + 32) as char else c
  }

  /** Upper-cases one letter (used only to state case-insensitivity); every other character is left alone. */
  function Upper(c: char): (u: char)
    ensures Lower(u) == Lower(c)
    ensures 'a' <= c <= 'z' ==> IsUpper(u) && u as int - 'A' as int == c as int - 'a' as int
    ensures !('a' <= c <= 'z') ==> u == c
  {
    if 'a' <= c <= 'z' then (c as int - 32) as char else c
  }

  /** Upper-cases a whole string. */
  function UpperAll(s: string): (r: string)
    ensures |r| == |s|
    ensures forall i :: 0 <= i < |s| ==> r[i] == Upper(s[i])
  {
    seq(|s|, i requires 0 <= i < |s| => Upper(s[i]))
  }

  /** `rzai_normalizedKey`: the key without underscores, lower-cased. */
  function NormalizedKey(key: string): (r: string)
    ensures '_' !in r
    ensures forall i :: 0 <= i < |r| ==> !IsUpper(r[i])
    ensures |r| <= |key|
  {
    if key == [] then []
    else if key[0] == '_' then NormalizedKey(key[1..])
    else [Lower(key[0])] + NormalizedKey(key[1..])
  }

  /** A dictionary key matches a property when both normalize to the same string. */
  predicate KeyMatches(key: string, propertyName: string) {
    NormalizedKey(key) == NormalizedKey(propertyName)
  }

  /** Matching is an equivalence: reflexive, symmetric and transitive. */
  lemma KeyMatchesEquivalence(a: string, b: string, c: string)
    ensures KeyMatches(a, a)
    ensures KeyMatches(a, b) ==> KeyMatches(b, a)
    ensures KeyMatches(a, b) && KeyMatches(b, c) ==> KeyMatches(a, c)
  {
  }

  /** Normalization works character by character: it distributes over concatenation. */
  lemma {:induction false} NormalizedKeyAppend(a: string, b: string)
    ensures NormalizedKey(a + b) == NormalizedKey(a) + NormalizedKey(b)
  {
    if a == [] {
      assert a + b == b;
    } else {
      assert (a + b)[0] == a[0];
      assert (a + b)[1..] == a[1..] + b;
      NormalizedKeyAppend(a[1..], b);
    }
  }

  /** Exactly the underscores are dropped: the length falls by their number. */
  lemma {:induction false} NormalizedKeyLength(key: string)
    ensures |NormalizedKey(key)| == |key| - multiset(key)['_']
  {
    if key != [] {
      assert key == [key[0]] + key[1..];
      NormalizedKeyLength(key[1..]);
    }
  }

  /** A key without underscores keeps its length. */
  lemma NormalizedKeyLengthNoUnderscore(key: string)
    requires '_' !in key
    ensures |NormalizedKey(key)| == |key|
  {
    NormalizedKeyLength(key);
    assert '_' !in multiset(key);
  }

  /** Normalizing a normalized key changes nothing. */
  lemma {:induction false} NormalizedKeyIdempotent(key: string)
    ensures NormalizedKey(NormalizedKey(key)) == NormalizedKey(key)
  {
    if key == [] {
    } else if key[0] == '_' {
      NormalizedKeyIdempotent(key[1..]);
    } else {
      var rest := NormalizedKey(key[1..]);
      var r := [Lower(key[0])] + rest;
      assert r[0] == Lower(key[0]) && r[1..] == rest;
      NormalizedKeyIdempotent(key[1..]);
      assert Lower(Lower(key[0])) == Lower(key[0]);
    }
  }

  /**
   * Every character that is not an underscore survives, lower-cased, at the
   * position given by the number of survivors before it: content and order
   * are kept.
   */
  lemma NormalizedKeyKeeps(key: string, i: int)
    requires 0 <= i < |key| && key[i] != '_'
    ensures |NormalizedKey(key[..i])| < |NormalizedKey(key)|
    ensures NormalizedKey(key)[|NormalizedKey(key[..i])|] == Lower(key[i])
  {
    assert key == key[..i] + ([key[i]] + key[i + 1..]);
    NormalizedKeyAppend(key[..i], [key[i]] + key[i + 1..]);
    assert [key[i]] + key[i + 1..] == [key[i]] + key[i + 1..];
    assert ([key[i]] + key[i + 1..])[1..] == key[i + 1..];
  }

  /** Matching ignores underscores: inserting one anywhere keeps the match. */
  lemma UnderscoreInsensitive(key: string, i: int)
    requires 0 <= i <= |key|
    ensures KeyMatches(key[..i] + "_" + key[i..], key)
  {
    NormalizedKeyAppend(key[..i] + "_", key[i..]);
    NormalizedKeyAppend(key[..i], "_");
    NormalizedKeyAppend(key[..i], key[i..]);
    assert key[..i] + key[i..] == key;
  }

  /**
   * Matching is a case-insensitive comparison: two keys that agree position
   * by position once lower-cased match.
   */
  lemma {:induction false} CaseInsensitiveMatch(a: string, b: string)
    requires |a| == |b|
    requires forall i :: 0 <= i < |a| ==> Lower(a[i]) == Lower(b[i])
    ensures KeyMatches(a, b)
  {
    if a != [] {
      assert a[0] == '_' <==> b[0] == '_';
      CaseInsensitiveMatch(a[1..], b[1..]);
    }
  }

  /** In particular the upper-cased key still matches. */
  lemma CaseInsensitive(key: string)
    ensures KeyMatches(UpperAll(key), key)
  {
    CaseInsensitiveMatch(UpperAll(key), key);
  }

  /** A key normalizes the same whatever the case of its first character. */
  lemma NormalizedKeyFirstCase(c: char, rest: string)
    ensures NormalizedKey([Upper(c)] + rest) == NormalizedKey([c] + rest)
  {
    var u, l := [Upper(c)] + rest, [c] + rest;
    assert u[0] == Upper(c) && u[1..] == rest;
    assert l[0] == c && l[1..] == rest;
  }

  /** Normalizing a camelCase join: the first word, then the second as if it were not capitalized. */
  lemma NormalizedCamel(first: string, second: string)
    requires second != []
    ensures NormalizedKey(first + [Upper(second[0])] + second[1..]) == NormalizedKey(first) + NormalizedKey(second)
  {
    var c, rest := second[0], second[1..];
    assert first + [Upper(c)] + rest == first + ([Upper(c)] + rest);
    NormalizedKeyAppend(first, [Upper(c)] + rest);
    NormalizedKeyFirstCase(c, rest);
    assert [c] + rest == second;
  }

  /**
   * The documented example, for any two words: the snake_case key
   * ("last_name") and the run-together key ("lastname") both match the
   * camelCase property name (`lastName`).
   */
  lemma SnakeAndLowerMatchCamel(first: string, second: string)
    requires second != []
    ensures KeyMatches(first + "_" + second, first + [Upper(second[0])] + second[1..])
    ensures KeyMatches(first + second, first + [Upper(second[0])] + second[1..])
  {
    NormalizedCamel(first, second);
    NormalizedKeyAppend(first + "_", second);
    NormalizedKeyAppend(first, "_");
    assert NormalizedKey("_") == [];
    NormalizedKeyAppend(first, second);
  }

  /**
   * Keys whose first characters are not underscores and differ even
   * ignoring case do not match, whatever follows: "first_name" does not
   * reach `lastName`.
   */
  lemma DifferentInitialsDoNotMatch(key: string, propertyName: string)
    requires key != [] && propertyName != []
    requires key[0] != '_' && propertyName[0] != '_'
    requires Lower(key[0]) != Lower(propertyName[0])
    ensures !KeyMatches(key, propertyName)
  {
    assert NormalizedKey(key)[0] == Lower(key[0]);
    assert NormalizedKey(propertyName)[0] == Lower(propertyName[0]);
  }
}
