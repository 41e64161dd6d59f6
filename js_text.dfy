/**
 * JavaScript string trimming, as `text.trim()` performs it in the mood-analysis hook.
 * Characters are Unicode scalar values; every code point `trim` removes lies in the
 * Basic Multilingual Plane, so UTF-16 code units and scalar values coincide for it.
 * As in the TrimString operation of ECMA-262, the kept part is found by scanning
 * from each end for the first character that is not whitespace.
 */
module JsText {

  /**
   * The code points `String.prototype.trim` strips: WhiteSpace (section 12.2 of
   * ECMA-262: TAB, VT, FF, ZWNBSP and every code point of category Zs) and
   * LineTerminator (section 12.3 of ECMA-262: LF, CR, LS, PS).
   */
  predicate IsWhitespace(c: char) {
    || c == '\U{0009}' || c == '\U{000B}' || c == '\U{000C}' || c == '\U{FEFF}'
    || c == ' ' || c == '\U{00A0}' || c == '\U{1680}'
    || ('\U{2000}' <= c <= '\U{200A}')
    || c == '\U{202F}' || c == '\U{205F}' || c == '\U{3000}'
    || c == '\n' || c == '\r' || c == '\U{2028}' || c == '\U{2029}'
  }

  /** Every character of `s` at a position in `[lo, hi)` is whitespace. */
  predicate WhitespaceBetween(s: string, lo: nat, hi: nat)
    requires lo <= hi <= |s|
  {
    forall i :: lo <= i < hi ==> IsWhitespace(s[i])
  }

  predicate AllWhitespace(s: string) {
    WhitespaceBetween(s, 0, |s|)
  }

  /**
   * Scans forward from `i` past whitespace: everything skipped is whitespace and the
   * scan stops at the end of `s` or at a character that is not whitespace.
   */
  function SkipLeading(s: string, i: nat): (n: nat)
    requires i <= |s|
    ensures i <= n <= |s|
    ensures WhitespaceBetween(s, i, n)
    ensures n < |s| ==> !IsWhitespace(s[n])
    decreases |s| - i
  {
    if i < |s| && IsWhitespace(s[i]) then SkipLeading(s, i + 1) else i
  }

  /**
   * Scans backward from `j`, not below `lo`, past whitespace: everything skipped is
   * whitespace and the scan stops at `lo` or just after a character that is not
   * whitespace.
   */
  function SkipTrailing(s: string, lo: nat, j: nat): (n: nat)
    requires lo <= j <= |s|
    ensures lo <= n <= j
    ensures WhitespaceBetween(s, n, j)
    ensures lo < n ==> !IsWhitespace(s[n - 1])
    decreases j - lo
  {
    if lo < j && IsWhitespace(s[j - 1]) then SkipTrailing(s, lo, j - 1) else j
  }

  /** Where `s.trim()` starts in `s`. */
  function TrimStartIndex(s: string): (lo: nat)
    ensures lo <= |s|
  {
    SkipLeading(s, 0)
  }

  /** Where `s.trim()` ends in `s`. */
  function TrimEndIndex(s: string): (hi: nat)
    ensures TrimStartIndex(s) <= hi <= |s|
  {
    SkipTrailing(s, TrimStartIndex(s), |s|)
  }

  /**
   * `s.trim()`: the slice of `s` left once the whitespace before and after it is
   * dropped. Only whitespace is dropped, the result neither starts nor ends with
   * whitespace, and it is empty exactly when every character of `s` is whitespace.
   */
  function Trim(s: string): (r: string)
    ensures var lo, hi := TrimStartIndex(s), TrimEndIndex(s);
      && r == s[lo..hi]
      && WhitespaceBetween(s, 0, lo) && WhitespaceBetween(s, hi, |s|)
    ensures r != [] ==> !IsWhitespace(r[0]) && !IsWhitespace(r[|r| - 1])
    ensures r == [] <==> AllWhitespace(s)
  {
    var lo := SkipLeading(s, 0);
    var hi := SkipTrailing(s, lo, |s|);
    assert lo < hi ==> s[lo..hi][0] == s[lo] && s[lo..hi][hi - lo - 1] == s[hi - 1];
    assert lo == |s| ==> hi == lo;
    s[lo..hi]
  }

  /** `!s.trim()`: the trimmed string is empty, hence falsy. */
  predicate IsBlank(s: string) {
    Trim(s) == ""
  }
}
