/** The parts of Rust's `char` and `str` that the validators rely on. */
module Strings {

  /** `char::is_ascii_digit`. */
  predicate IsAsciiDigit(c: char) {
    '0' <= c <= '9'
  }

  /** `str::chars().all(|c| c.is_ascii_digit())`. */
  predicate AllAsciiDigits(s: string) {
    forall i | 0 <= i < |s| :: IsAsciiDigit(s[i])
  }

  /** `char::is_whitespace`: the characters with the Unicode White_Space property. */
  predicate IsWhitespace(c: char) {
    || ('\U{0009}' <= c <= '\U{000D}')
    || c == ' '
    || c == '\U{0085}'
    || c == '\U{00A0}'
    || c == '\U{1680}'
    || ('\U{2000}' <= c <= '\U{200A}')
    || c == '\U{2028}'
    || c == '\U{2029}'
    || c == '\U{202F}'
    || c == '\U{205F}'
    || c == '\U{3000}'
  }

  /** `str::trim_start`: drops the leading whitespace, and only that. */
  function TrimStart(s: string): (r: string)
    ensures |r| <= |s| && r == s[|s| - |r|..]
    ensures forall i | 0 <= i < |s| - |r| :: IsWhitespace(s[i])
    ensures r != [] ==> !IsWhitespace(r[0])
  {
    if s != [] && IsWhitespace(s[0]) then TrimStart(s[1..]) else s
  }

  /** `str::trim_end`: drops the trailing whitespace, and only that. */
  function TrimEnd(s: string): (r: string)
    ensures |r| <= |s| && r == s[..|r|]
    ensures forall i | |r| <= i < |s| :: IsWhitespace(s[i])
    ensures r != [] ==> !IsWhitespace(r[|r| - 1])
  {
    if s != [] && IsWhitespace(s[|s| - 1]) then TrimEnd(s[..|s| - 1]) else s
  }

  /** `r` is the slice of `s` starting at `i`, and everything outside that slice is whitespace. */
  predicate IsWhitespaceTrimOf(s: string, r: string, i: int) {
    && 0 <= i <= |s| - |r|
    && r == s[i..i + |r|]
    && (forall k | 0 <= k < i :: IsWhitespace(s[k]))
    && (forall k | i + |r| <= k < |s| :: IsWhitespace(s[k]))
  }

  /** `str::trim`: a slice of the input with only whitespace removed at each end; what is left
      neither starts nor ends with whitespace. */
  function Trim(s: string): (r: string)
    ensures exists i :: IsWhitespaceTrimOf(s, r, i)
    ensures r != [] ==> !IsWhitespace(r[0]) && !IsWhitespace(r[|r| - 1])
  {
    SuffixPrefixIsTrim(s, TrimStart(s), TrimEnd(TrimStart(s)));
    TrimEnd(TrimStart(s))
  }

  /** A prefix `r` of a suffix `t` of `s`, where only whitespace lies outside each, is a
      whitespace trim of `s`. */
  lemma SuffixPrefixIsTrim(s: string, t: string, r: string)
    requires |t| <= |s| && t == s[|s| - |t|..]
    requires |r| <= |t| && r == t[..|r|]
    requires forall k | 0 <= k < |s| - |t| :: IsWhitespace(s[k])
    requires forall k | |r| <= k < |t| :: IsWhitespace(t[k])
    ensures IsWhitespaceTrimOf(s, r, |s| - |t|)
  {
    var i := |s| - |t|;
    assert s[i..][..|r|] == s[i..i + |r|];
    forall k | i + |r| <= k < |s|
      ensures IsWhitespace(s[k])
    {
      assert s[k] == t[k - i];
    }
  }

  /** `s.trim().is_empty()`. */
  predicate IsBlank(s: string) {
    Trim(s) == []
  }

  /** An all-whitespace string loses everything to `trim_start`. */
  lemma {:induction false} TrimStartAllWhitespace(s: string)
    requires forall i | 0 <= i < |s| :: IsWhitespace(s[i])
    ensures TrimStart(s) == []
  {
    if s != [] {
      assert IsWhitespace(s[0]);
      TrimStartAllWhitespace(s[1..]);
    }
  }

  /** A string trims to nothing exactly when every character of it is whitespace. */
  lemma BlankIffAllWhitespace(s: string)
    ensures IsBlank(s) <==> forall i | 0 <= i < |s| :: IsWhitespace(s[i])
  {
    if forall i | 0 <= i < |s| :: IsWhitespace(s[i]) {
      TrimStartAllWhitespace(s);
    }
  }
}
