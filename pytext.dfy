/**
 * The few pieces of Python `str` behaviour the modelled code relies on:
 * ordering with `<`/`>`, `rstrip(chars)`, ASCII digits and a case-insensitive
 * substring search.
 */
module PyText {

  /** Python's `a < b` on `str`: code-point lexicographic order, a proper prefix first. */
  predicate LexLess(a: string, b: string)
    decreases |a|
  {
    if |a| == 0 then |b| > 0
    else if |b| == 0 then false
    else if a[0] == b[0] then LexLess(a[1..], b[1..])
    else a[0] < b[0]
  }

  lemma {:induction false} LexLessIrreflexive(a: string)
    ensures !LexLess(a, a)
    decreases |a|
  {
    if |a| > 0 {
      LexLessIrreflexive(a[1..]);
    }
  }

  lemma {:induction false} LexLessTransitive(a: string, b: string, c: string)
    requires LexLess(a, b) && LexLess(b, c)
    ensures LexLess(a, c)
    decreases |a|
  {
    if |a| > 0 && |b| > 0 && |c| > 0 && a[0] == b[0] && b[0] == c[0] {
      LexLessTransitive(a[1..], b[1..], c[1..]);
    }
  }

  /** Two different strings are always ordered one way or the other. */
  lemma {:induction false} LexLessTotal(a: string, b: string)
    requires a != b
    ensures LexLess(a, b) || LexLess(b, a)
    decreases |a|
  {
    if |a| > 0 && |b| > 0 && a[0] == b[0] {
      assert a == [a[0]] + a[1..] && b == [b[0]] + b[1..];
      LexLessTotal(a[1..], b[1..]);
    }
  }

  /** Python's `s.rstrip(chars)`: drop trailing characters that belong to `chars`. */
  function RStrip(s: string, chars: set<char>): (r: string)
    ensures |r| <= |s| && r == s[..|r|]
    ensures r == [] || r[|r| - 1] !in chars
    ensures forall i :: |r| <= i < |s| ==> s[i] in chars
  {
    if |s| > 0 && s[|s| - 1] in chars then RStrip(s[..|s| - 1], chars) else s
  }

  /** Stripping removes exactly a suffix of set characters that follows a character outside the set. */
  lemma RStripSuffix(d: string, u: string, chars: set<char>)
    requires d == [] || d[|d| - 1] !in chars
    requires forall k :: 0 <= k < |u| ==> u[k] in chars
    ensures RStrip(d + u, chars) == d
  {
    var s := d + u;
    var r := RStrip(s, chars);
    assert |r| == |d| by {
      if |d| > 0 {
        assert s[|d| - 1] !in chars;
      }
      assert forall i :: |d| <= i < |s| ==> s[i] == u[i - |d|];
    }
    assert s[..|d|] == d;
  }

  predicate IsDigit(c: char) {
    '0' <= c <= '9'
  }

  function DigitValue(c: char): nat
    requires IsDigit(c)
  {
    (c - '0') as nat
  }

  function LowerAscii(c: char): char {
    if 'A' <= c <= 'Z' then (c - 'A' + 'a') as char else c
  }

  /** `pattern` occurs in `s` at index `i` when both are folded to lower case (pattern is lower case). */
  predicate MatchesAt(s: string, pattern: string, i: nat)
  {
    i + |pattern| <= |s| && forall j :: 0 <= j < |pattern| ==> LowerAscii(s[i + j]) == pattern[j]
  }

  /** `re.search(pattern, s, re.IGNORECASE)` for a lower-case literal pattern, by a left-to-right scan. */
  function ContainsIgnoreCase(s: string, pattern: string, from: nat := 0): (found: bool)
    requires from <= |s|
    ensures found <==> exists i :: from <= i && MatchesAt(s, pattern, i)
    decreases |s| - from
  {
    if MatchesAt(s, pattern, from) then true
    else if from == |s| then false
    else ContainsIgnoreCase(s, pattern, from + 1)
  }
}
