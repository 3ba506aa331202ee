/** String and sequence helpers that mirror the Python built-ins the URL
    enumerator relies on: slicing with a negative start, `in` on strings,
    `str.endswith` and `reversed`. */
module Text {

  /** Python's `s[-4:]`: the last four characters, or all of `s` when it is
      shorter than four. */
  function LastFour(s: string): (r: string)
    ensures |r| == if |s| < 4 then |s| else 4
    ensures s == s[..|s| - |r|] + r
  {
    if |s| < 4 then s else s[|s| - 4..]
  }

  /** `s` ends with `suffix`. */
  predicate EndsWith(s: string, suffix: string)
  {
    |suffix| <= |s| && s[|s| - |suffix|..] == suffix
  }

  /** `needle` occurs in `haystack` starting at index `i`. */
  predicate OccursAt(needle: string, haystack: string, i: int)
  {
    0 <= i <= |haystack| - |needle| && haystack[i..i + |needle|] == needle
  }

  /** Python's `needle in haystack` on strings. */
  predicate IsSubstring(needle: string, haystack: string)
  {
    exists i :: 0 <= i <= |haystack| && OccursAt(needle, haystack, i)
  }

  lemma SubstringOfConcat(a: string, b: string, c: string)
    ensures IsSubstring(b, a + b + c)
  {
    var s := a + b + c;
    assert s[|a|..|a| + |b|] == b;
    assert OccursAt(b, s, |a|);
  }

  /** The last four characters of `a + b` are those of `b` once `b` has four. */
  lemma LastFourOfConcat(a: string, b: string)
    requires |b| >= 4
    ensures LastFour(a + b) == LastFour(b)
  {
    assert (a + b)[|a + b| - 4..] == b[|b| - 4..];
  }

  /** Membership in a non-empty sequence: in its prefix or its last element. */
  lemma InPrefixOrLast<T>(s: seq<T>, x: T)
    requires s != []
    ensures x in s <==> x in s[..|s| - 1] || x == s[|s| - 1]
  {
    assert s == s[..|s| - 1] + [s[|s| - 1]];
  }

  /** Python's `reversed(s)`, as a sequence. */
  function Reversed<T>(s: seq<T>): (r: seq<T>)
    ensures |r| == |s|
  {
    if s == [] then [] else Reversed(s[1..]) + [s[0]]
  }

  /** Element `k` of the reversed sequence is element `|s| - 1 - k` of `s`. */
  lemma {:induction false} ReversedAt<T>(s: seq<T>, k: int)
    requires 0 <= k < |s|
    ensures Reversed(s)[k] == s[|s| - 1 - k]
  {
    if k < |s| - 1 {
      ReversedAt(s[1..], k);
    }
  }
}
