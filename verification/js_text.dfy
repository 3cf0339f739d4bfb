/**
 * The part of JavaScript string semantics the form relies on:
 * `String.prototype.trim` and the truthiness of strings.
 */
module JsText {

  /**
   * The characters `trim` removes: WhiteSpace (section 12.2 of ECMA-262)
   * and LineTerminator (section 12.3 of ECMA-262). The Zs category is
   * U+0020, U+00A0, U+1680, U+2000..U+200A, U+202F, U+205F and U+3000.
   */
  predicate IsSpace(c: char) {
    || c == '\t' || c == '\n' || c == '\U{000B}' || c == '\U{000C}' || c == '\r'
    || c == ' ' || c == '\U{00A0}' || c == '\U{1680}'
    || ('\U{2000}' <= c <= '\U{200A}')
    || c == '\U{2028}' || c == '\U{2029}' || c == '\U{202F}' || c == '\U{205F}'
    || c == '\U{3000}' || c == '\U{FEFF}'
  }

  /** Every character of `s` is white space (this includes the empty string). */
  predicate AllSpace(s: string) {
    forall i :: 0 <= i < |s| ==> IsSpace(s[i])
  }

  /** A JavaScript string is truthy iff it is not the empty string. */
  predicate Truthy(s: string) {
    s != ""
  }

  /** Drops the leading white space: the result is the suffix of `s` that starts at its first non-space. */
  function TrimStart(s: string): (r: string)
    ensures |r| <= |s| && r == s[|s| - |r|..]
    ensures AllSpace(s[..|s| - |r|])
    ensures r == [] || !IsSpace(r[0])
  {
    if |s| > 0 && IsSpace(s[0]) then
      var r := TrimStart(s[1..]);
      assert s[..|s| - |r|] == [s[0]] + s[1..][..|s| - 1 - |r|];
      r
    else
      s
  }

  /** Drops the trailing white space: the result is the prefix of `s` that ends at its last non-space. */
  function TrimEnd(s: string): (r: string)
    ensures |r| <= |s| && r == s[..|r|]
    ensures AllSpace(s[|r|..])
    ensures r == [] || !IsSpace(r[|r| - 1])
  {
    if |s| > 0 && IsSpace(s[|s| - 1]) then
      var r := TrimEnd(s[..|s| - 1]);
      assert s[|r|..] == s[..|s| - 1][|r|..] + [s[|s| - 1]];
      r
    else
      s
  }

  /** `r` is the slice of `s` at offset `k`, with only white space before and after it. */
  predicate SpaceAround(s: string, k: int, r: string) {
    0 <= k <= |s| - |r| && r == s[k..k + |r|] && AllSpace(s[..k]) && AllSpace(s[k + |r|..])
  }

  /**
   * `r` is `s` with its leading and trailing white space removed: a slice
   * of `s` with only white space around it, starting and ending with a
   * non-space when it is not empty.
   */
  ghost predicate TrimmedFrom(r: string, s: string) {
    && (exists k :: SpaceAround(s, k, r))
    && (r != [] ==> !IsSpace(r[0]) && !IsSpace(r[|r| - 1]))
  }

  /** Trimming the start and then the end removes exactly the surrounding white space. */
  lemma {:induction false} TrimSlice(s: string)
    ensures TrimmedFrom(TrimEnd(TrimStart(s)), s)
  {
    var t := TrimStart(s);
    var r := TrimEnd(t);
    var k := |s| - |t|;
    assert s[k + |r|..] == t[|r|..];
    assert SpaceAround(s, k, r);
    if r != [] {
      assert r[0] == t[0];
    }
  }

  /** Trimming both ends leaves nothing exactly when `s` is white space only. */
  lemma {:induction false} TrimEmptyIff(s: string)
    ensures TrimEnd(TrimStart(s)) == [] <==> AllSpace(s)
  {
    var t := TrimStart(s);
    if TrimEnd(t) == [] {
      assert t[0..] == t;
      assert s[..|s|] == s;
    }
    if AllSpace(s) {
      assert AllSpace(s[|s| - |t|..]);
    }
  }

  /**
   * `s.trim()`: `s` without its surrounding white space; it is empty
   * exactly when `s` is white space only.
   */
  function Trim(s: string): (r: string)
    ensures TrimmedFrom(r, s)
    ensures r == [] <==> AllSpace(s)
  {
    TrimSlice(s);
    TrimEmptyIff(s);
    TrimEnd(TrimStart(s))
  }

  /** `!s.trim()`: the trimmed string is falsy, which happens exactly when `s` is white space only. */
  predicate IsBlank(s: string)
    ensures IsBlank(s) <==> AllSpace(s)
  {
    !Truthy(Trim(s))
  }
}
