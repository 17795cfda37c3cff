/** The three Python string operations the message handlers rely on:
    `str.strip()`, `str.split(" ", 1)` and the substring test `sub in s`.
    Strings are sequences of Unicode code points, as Python's are. */
module Text {

  import opened Wrappers

  /** Python's `str.isspace()` for one code point: the characters
      `str.strip()` with no argument removes. */
  predicate IsSpace(c: char) {
    || c == ' ' || c == '\t' || c == '\n' || c == '\r'
    || c == '\U{0B}' || c == '\U{0C}'
    || ('\U{1C}' <= c <= '\U{1F}')
    || c == '\U{85}' || c == '\U{A0}' || c == '\U{1680}'
    || ('\U{2000}' <= c <= '\U{200A}')
    || c == '\U{2028}' || c == '\U{2029}' || c == '\U{202F}'
    || c == '\U{205F}' || c == '\U{3000}'
  }

  predicate AllSpace(s: string) {
    forall i :: 0 <= i < |s| ==> IsSpace(s[i])
  }

  /** No white space at either end: what `strip()` leaves behind. */
  predicate Trimmed(s: string) {
    s != [] ==> !IsSpace(s[0]) && !IsSpace(s[|s| - 1])
  }

  /** The first index at or after `i` that does not hold white space
      (`|s|` when there is none): where `strip()` starts its result. */
  function SkipSpaces(s: string, i: nat): (n: nat)
    requires i <= |s|
    ensures i <= n <= |s|
    ensures forall k :: i <= k < n ==> IsSpace(s[k])
    ensures n < |s| ==> !IsSpace(s[n])
    decreases |s| - i
  {
    if i == |s| || !IsSpace(s[i]) then i else SkipSpaces(s, i + 1)
  }

  /** Going back from `j` but not below `lo`, the end of the last
      character that is not white space (`lo` when there is none): where
      `strip()` ends its result. */
  function BackSpaces(s: string, lo: nat, j: nat): (n: nat)
    requires lo <= j <= |s|
    ensures lo <= n <= j
    ensures forall k :: n <= k < j ==> IsSpace(s[k])
    ensures lo < n ==> !IsSpace(s[n - 1])
    decreases j
  {
    if j == lo || !IsSpace(s[j - 1]) then j else BackSpaces(s, lo, j - 1)
  }

  /** Python `s.strip()`: `s` with the white space at both ends removed.
      The result is the part of `s` between two all-space margins, and it
      starts and ends with a non-space character (or is empty). */
  function Strip(s: string): (r: string)
    ensures |r| <= |s|
    ensures Trimmed(r)
    ensures exists i :: 0 <= i <= |s| - |r| && s[i..i + |r|] == r
                        && AllSpace(s[..i]) && AllSpace(s[i + |r|..])
  {
    var i := SkipSpaces(s, 0);
    var j := BackSpaces(s, i, |s|);
    StripWitness(s, i, j);
    s[i..j]
  }

  /** The proof obligation of `Strip`, kept apart from its body. */
  lemma StripWitness(s: string, i: nat, j: nat)
    requires i == SkipSpaces(s, 0) && j == BackSpaces(s, i, |s|)
    ensures Trimmed(s[i..j])
    ensures AllSpace(s[..i]) && AllSpace(s[j..])
  {
    forall k | 0 <= k < i ensures IsSpace(s[..i][k]) {
      assert s[..i][k] == s[k];
    }
    forall k | 0 <= k < |s| - j ensures IsSpace(s[j..][k]) {
      assert s[j..][k] == s[j + k];
    }
    var r := s[i..j];
    if i < j {
      assert r[0] == s[i] && r[|r| - 1] == s[j - 1];
    }
  }

  /** `SkipSpaces` stops at the first non-space character and nowhere else. */
  lemma SkipSpacesUnique(s: string, i: nat, n: nat)
    requires i <= n <= |s| && (forall k :: i <= k < n ==> IsSpace(s[k]))
    requires n < |s| ==> !IsSpace(s[n])
    ensures SkipSpaces(s, i) == n
  {
  }

  /** `BackSpaces` stops after the last non-space character and nowhere else. */
  lemma BackSpacesUnique(s: string, lo: nat, j: nat, n: nat)
    requires lo <= n <= j <= |s| && (forall k :: n <= k < j ==> IsSpace(s[k]))
    requires lo < n ==> !IsSpace(s[n - 1])
    ensures BackSpaces(s, lo, j) == n
  {
  }

  /** `strip()` undoes white-space padding: a trimmed text with white
      space added on either side strips back to itself. */
  lemma StripPadded(pre: string, x: string, post: string)
    requires AllSpace(pre) && AllSpace(post) && Trimmed(x)
    ensures Strip(pre + x + post) == x
  {
    var s := pre + x + post;
    var e := |pre| + |x|;
    assert forall k :: 0 <= k < |pre| ==> s[k] == pre[k];
    assert forall k :: |pre| <= k < e ==> s[k] == x[k - |pre|];
    assert forall k :: e <= k < |s| ==> s[k] == post[k - e];
    if x == [] {
      SkipSpacesUnique(s, 0, |s|);
      BackSpacesUnique(s, |s|, |s|, |s|);
    } else {
      SkipSpacesUnique(s, 0, |pre|);
      BackSpacesUnique(s, |pre|, |s|, e);
      assert s[|pre|..e] == x;
    }
  }

  /** A trimmed text strips to itself. */
  lemma StripTrimmed(x: string)
    requires Trimmed(x)
    ensures Strip(x) == x
  {
    if x == [] {
      SkipSpacesUnique(x, 0, 0);
    } else {
      SkipSpacesUnique(x, 0, 0);
      BackSpacesUnique(x, 0, |x|, |x|);
    }
  }

  /** Stripping twice is stripping once. */
  lemma StripIdempotent(s: string)
    ensures Strip(Strip(s)) == Strip(s)
  {
    StripTrimmed(Strip(s));
  }

  /** Python `s.split(sep, 1)` for a one-character separator: `None` when
      the separator does not occur (a one-element list in Python),
      otherwise the text before the FIRST separator and everything after it. */
  function SplitOnce(s: string, sep: char): (r: Option<(string, string)>)
    ensures r.None? <==> sep !in s
    ensures r.Some? ==> r.value.0 + [sep] + r.value.1 == s && sep !in r.value.0
  {
    if s == [] then None
    else if s[0] == sep then Some(([], s[1..]))
    else
      match SplitOnce(s[1..], sep)
      case None => None
      case Some(parts) =>
        assert [s[0]] + parts.0 + [sep] + parts.1 == s;
        Some(([s[0]] + parts.0, parts.1))
  }

  /** `split` inverts joining at the first separator: the head must not
      contain the separator, the tail may. */
  lemma {:induction false} SplitOnceJoin(head: string, sep: char, tail: string)
    requires sep !in head
    ensures SplitOnce(head + [sep] + tail, sep) == Some((head, tail))
  {
    var s := head + [sep] + tail;
    var r := SplitOnce(s, sep);
    var a := r.value.0;
    // both a and head are the prefix of s before its first separator
    assert forall k :: 0 <= k < |head| ==> s[k] == head[k] && s[k] != sep;
    assert forall k :: 0 <= k < |a| ==> s[k] == a[k] && s[k] != sep;
    assert s[|head|] == sep && s[|a|] == sep;
    assert a == s[..|a|] == head;
    assert r.value.1 == s[|a| + 1..] == tail;
  }

  /** `sub` occurs in `s` starting at index `i`. */
  predicate OccursAt(s: string, sub: string, i: nat) {
    i + |sub| <= |s| && s[i..i + |sub|] == sub
  }

  /** Python's `sub in s` on strings: `sub` occurs somewhere in `s`. */
  function Contains(s: string, sub: string): (b: bool)
    ensures b <==> exists i: nat :: OccursAt(s, sub, i)
    decreases |s|
  {
    if |sub| <= |s| && s[..|sub|] == sub then
      assert OccursAt(s, sub, 0);
      true
    else if s == [] then
      false
    else
      OccurrencesShift(s, sub);
      Contains(s[1..], sub)
  }

  /** The occurrences in `s[1..]` are those in `s` after its first
      character, one index earlier. */
  lemma OccurrencesShift(s: string, sub: string)
    requires s != []
    ensures (exists i: nat :: OccursAt(s[1..], sub, i))
        <==> (exists i: nat :: i >= 1 && OccursAt(s, sub, i))
  {
    forall i: nat | OccursAt(s[1..], sub, i)
      ensures OccursAt(s, sub, i + 1)
    {
      assert s[1..][i..i + |sub|] == s[i + 1..i + 1 + |sub|];
    }
    forall i: nat | i >= 1 && OccursAt(s, sub, i)
      ensures OccursAt(s[1..], sub, i - 1)
    {
      assert s[1..][i - 1..i - 1 + |sub|] == s[i..i + |sub|];
    }
  }

  /** Nothing but the empty string occurs in the empty string. */
  lemma EmptyContainsOnlyEmpty(sub: string)
    ensures Contains([], sub) <==> sub == []
  {
  }
}
