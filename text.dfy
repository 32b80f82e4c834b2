/** Case-insensitive substring search, the test `searchSongs` applies to a
    track's name and artist (`localizedCaseInsensitiveContains`). Case folding
    is ASCII only; the locale rules of the platform are not modelled. */
module Text {

  /** ASCII lower-casing of one character; every other character is kept. */
  function Lower(c: char): (r: char)
    ensures 'A' <= c <= 'Z' ==> r as int == c as int + 32
    ensures !('A' <= c <= 'Z') ==> r == c
    ensures !('A' <= r <= 'Z')
  {
    if 'A' <= c <= 'Z' then (c as int + 32) as char else c
  }

  /** `s` lower-cased character by character. */
  function LowerString(s: string): (r: string)
    ensures |r| == |s|
    ensures forall i :: 0 <= i < |s| ==> r[i] == Lower(s[i])
  {
    seq(|s|, i requires 0 <= i < |s| => Lower(s[i]))
  }

  /** Lower-casing twice is lower-casing once. */
  lemma LowerStringIdempotent(s: string)
    ensures LowerString(LowerString(s)) == LowerString(s)
  {
  }

  /** `pattern` occurs in `text` starting at position `i`. */
  predicate OccursAt(text: string, pattern: string, i: nat)
  {
    i + |pattern| <= |text| && text[i..i + |pattern|] == pattern
  }

  /** A slice of a slice is a slice of the original. */
  lemma SliceOfSlice(s: string, i: nat, j: nat, k: nat, l: nat)
    requires i <= j <= |s| && k <= l <= j - i
    ensures s[i..j][k..l] == s[i + k..i + l]
  {
    var u, v := s[i..j][k..l], s[i + k..i + l];
    assert |u| == |v|;
    assert forall m :: 0 <= m < |u| ==> u[m] == v[m];
  }

  /** `text` contains `pattern` as a contiguous substring, scanning from the left. */
  predicate Contains(text: string, pattern: string)
    decreases |text|
  {
    (|pattern| <= |text| && text[..|pattern|] == pattern)
    || (|text| > 0 && Contains(text[1..], pattern))
  }

  /** The scan finds `pattern` exactly when it occurs at some position. */
  lemma {:induction false} ContainsIffOccurs(text: string, pattern: string)
    ensures Contains(text, pattern) <==> exists i: nat :: OccursAt(text, pattern, i)
    decreases |text|
  {
    if Contains(text, pattern) {
      if |pattern| <= |text| && text[..|pattern|] == pattern {
        assert OccursAt(text, pattern, 0);
      } else {
        ContainsIffOccurs(text[1..], pattern);
        var i: nat :| OccursAt(text[1..], pattern, i);
        assert text[1..] == text[1..|text|];
        SliceOfSlice(text, 1, |text|, i, i + |pattern|);
        assert text[i + 1..i + 1 + |pattern|] == text[1..][i..i + |pattern|] == pattern;
        assert OccursAt(text, pattern, i + 1);
      }
    }
    if exists i: nat :: OccursAt(text, pattern, i) {
      var i: nat :| OccursAt(text, pattern, i);
      if i == 0 {
        assert text[..|pattern|] == text[0..0 + |pattern|];
      } else {
        assert text[1..] == text[1..|text|];
        SliceOfSlice(text, 1, |text|, i - 1, i - 1 + |pattern|);
        assert OccursAt(text[1..], pattern, i - 1);
        ContainsIffOccurs(text[1..], pattern);
      }
    }
  }

  /** Containment is transitive: a substring of a substring is a substring. */
  lemma ContainsTransitive(a: string, b: string, c: string)
    requires Contains(a, b) && Contains(b, c)
    ensures Contains(a, c)
  {
    ContainsIffOccurs(a, b);
    ContainsIffOccurs(b, c);
    var i: nat :| OccursAt(a, b, i);
    var j: nat :| OccursAt(b, c, j);
    SliceOfSlice(a, i, i + |b|, j, j + |c|);
    assert OccursAt(a, c, i + j);
    ContainsIffOccurs(a, c);
  }

  /** If some character of `pattern` never appears in `text`, the scan fails. */
  lemma {:induction false} MissingCharNotContained(text: string, pattern: string, c: char)
    requires c in pattern && c !in text
    ensures !Contains(text, pattern)
    decreases |text|
  {
    if |text| > 0 {
      assert forall x :: x in text[1..] ==> x in text;
      MissingCharNotContained(text[1..], pattern, c);
    }
  }

  /** Foundation's `localizedCaseInsensitiveContains`, with ASCII folding:
      the empty string is never contained, every other needle is looked up
      in the lower-cased text. */
  predicate CaseInsensitiveContains(text: string, needle: string): (r: bool)
    ensures r <==> needle != "" && exists i: nat :: OccursAt(LowerString(text), LowerString(needle), i)
    ensures r ==> 0 < |needle| <= |text|
  {
    ContainsIffOccurs(LowerString(text), LowerString(needle));
    needle != "" && Contains(LowerString(text), LowerString(needle))
  }

  /** The case of the needle does not matter. */
  lemma CaseInsensitiveContainsIgnoresCase(text: string, needle: string)
    ensures CaseInsensitiveContains(text, LowerString(needle)) == CaseInsensitiveContains(text, needle)
  {
    LowerStringIdempotent(needle);
  }

  /** A needle found inside a longer needle that `text` contains is found in
      `text` too: shortening a query never loses a match. */
  lemma CaseInsensitiveContainsTransitive(text: string, query: string, shorter: string)
    requires CaseInsensitiveContains(text, query) && CaseInsensitiveContains(query, shorter)
    ensures CaseInsensitiveContains(text, shorter)
  {
    LowerStringIdempotent(query);
    ContainsTransitive(LowerString(text), LowerString(query), LowerString(shorter));
  }
}
