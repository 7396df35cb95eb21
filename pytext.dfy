/** The part of Python's `str` that the matcher relies on, restricted to
    ASCII: `lower()`, `strip()` and the substring test `needle in hay`. */
module PyText {

  /** `str.lower()` on one character: only 'A'..'Z' change. */
  function LowerChar(c: char): char {
    if 'A' <= c <= 'Z' then (c as int + 32) as char else c
  }

  /** `str.lower()`, one character at a time. */
  function Lower(s: string): string {
    if |s| == 0 then [] else [LowerChar(s[0])] + Lower(s[1..])
  }

  lemma {:induction false} LowerChars(s: string)
    ensures |Lower(s)| == |s|
    ensures forall i :: 0 <= i < |s| ==> Lower(s)[i] == LowerChar(s[i])
  {
    if |s| > 0 {
      LowerChars(s[1..]);
      assert forall i :: 0 < i < |s| ==> s[i] == s[1..][i - 1];
    }
  }

  /** The ASCII characters for which Python's `str.isspace()` holds. */
  predicate IsSpace(c: char) {
    c == ' ' || '\t' <= c <= '\r' || '\U{1C}' <= c <= '\U{1F}'
  }

  function StripLeft(s: string): string {
    if |s| > 0 && IsSpace(s[0]) then StripLeft(s[1..]) else s
  }

  function StripRight(s: string): string {
    if |s| > 0 && IsSpace(s[|s| - 1]) then StripRight(s[..|s| - 1]) else s
  }

  /** Stripping on the left drops the longest all-space prefix: what is
      left is a suffix that is empty or starts with a non-space. */
  lemma {:induction false} StripLeftSuffix(s: string)
    ensures var r := StripLeft(s);
      |r| <= |s| && r == s[|s| - |r|..] && (r == [] || !IsSpace(r[0])) &&
      forall i :: 0 <= i < |s| - |r| ==> IsSpace(s[i])
  {
    if |s| > 0 && IsSpace(s[0]) {
      StripLeftSuffix(s[1..]);
      var r := StripLeft(s[1..]);
      assert s[1..][|s| - 1 - |r|..] == s[|s| - |r|..];
      forall i | 0 <= i < |s| - |r| ensures IsSpace(s[i]) {
        if i > 0 {
          assert s[i] == s[1..][i - 1];
        }
      }
    }
  }

  /** Stripping on the right drops the longest all-space suffix: what is
      left is a prefix that is empty or ends with a non-space. */
  lemma {:induction false} StripRightPrefix(s: string)
    ensures var r := StripRight(s);
      |r| <= |s| && r == s[..|r|] && (r == [] || !IsSpace(r[|r| - 1])) &&
      forall i :: |r| <= i < |s| ==> IsSpace(s[i])
  {
    if |s| > 0 && IsSpace(s[|s| - 1]) {
      StripRightPrefix(s[..|s| - 1]);
      var r := StripRight(s[..|s| - 1]);
      assert s[..|s| - 1][..|r|] == s[..|r|];
      forall i | |r| <= i < |s| ensures IsSpace(s[i]) {
        if i < |s| - 1 {
          assert s[i] == s[..|s| - 1][i];
        }
      }
    }
  }

  /** `str.strip()`: drop leading and trailing white space. */
  function Strip(s: string): string {
    StripRight(StripLeft(s))
  }

  /** `s.lower().strip()`, the normalisation every matching rule applies. */
  function Normalize(s: string): string {
    Strip(Lower(s))
  }

  /** The list comprehension `[x.lower().strip() for x in xs]`. */
  function NormalizeAll(xs: seq<string>): (r: seq<string>)
    ensures |r| == |xs|
  {
    seq(|xs|, i requires 0 <= i < |xs| => Normalize(xs[i]))
  }

  /** Unfolding lemma for NormalizeAll's entries, called where a proof
      needs them. */
  lemma NormalizeAllElements(xs: seq<string>)
    ensures forall i :: 0 <= i < |xs| ==> NormalizeAll(xs)[i] == Normalize(xs[i])
  {
  }

  /** Python's `needle in hay` for two strings. The empty string occurs
      in every string. */
  predicate Contains(hay: string, needle: string) {
    exists i :: 0 <= i <= |hay| && OccursAt(hay, needle, i)
  }

  predicate OccursAt(hay: string, needle: string, i: nat) {
    i + |needle| <= |hay| && hay[i..i + |needle|] == needle
  }

  /** The matcher's "substring in either direction" test. */
  predicate ContainsEither(a: string, b: string) {
    Contains(a, b) || Contains(b, a)
  }

  lemma ContainsSelf(s: string)
    ensures Contains(s, s)
  {
    assert OccursAt(s, s, 0);
  }
}
