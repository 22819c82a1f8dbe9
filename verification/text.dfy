/** Python's `str.strip()` and the blank test used by `if not name_clean`
    and by wtforms' DataRequired on text fields. */
module Text {

  /** The characters Python's `str.isspace()` accepts, which `strip()` with
      no argument removes: tab to carriage return, the four information
      separators, space, next line, no-break space, ogham space mark, the
      en quad to hair space block, the line and paragraph separators, the
      narrow no-break space, the medium mathematical space and the
      ideographic space. */
  predicate IsWhitespace(c: char)
  {
    || '\t' <= c <= '\r'
    || '\U{1C}' <= c <= ' '
    || c == '\U{85}' || c == '\U{A0}' || c == '\U{1680}'
    || '\U{2000}' <= c <= '\U{200A}'
    || c == '\U{2028}' || c == '\U{2029}' || c == '\U{202F}' || c == '\U{205F}'
    || c == '\U{3000}'
  }

  predicate IsBlank(s: string)
  {
    forall i :: 0 <= i < |s| ==> IsWhitespace(s[i])
  }

  /** Where `lstrip()` cuts: the number of whitespace characters that open s. */
  function LeadingBlank(s: string): (n: nat)
    ensures n <= |s| && IsBlank(s[..n])
    ensures n == |s| || !IsWhitespace(s[n])
  {
    if s != [] && IsWhitespace(s[0]) then
      var k := LeadingBlank(s[1..]);
      assert forall i :: 1 <= i < 1 + k ==> s[i] == s[1..][..k][i - 1];
      1 + k
    else 0
  }

  /** Where `rstrip()` cuts: the length of s without its trailing whitespace. */
  function TrailingBlank(s: string): (n: nat)
    ensures n <= |s| && IsBlank(s[n..])
    ensures n == 0 || !IsWhitespace(s[n - 1])
  {
    if s != [] && IsWhitespace(s[|s| - 1]) then
      var n := TrailingBlank(s[..|s| - 1]);
      assert forall i :: n <= i < |s| - 1 ==> s[i] == s[..|s| - 1][n..][i - n];
      n
    else |s|
  }

  /** `strip()`: the result is a slice of the input with only whitespace cut
      off either side; it is empty exactly when the input was blank, and
      otherwise starts and ends with a non-whitespace character. */
  function Strip(s: string): (r: string)
    ensures exists a, b :: 0 <= a <= b <= |s| && r == s[a..b] && IsBlank(s[..a]) && IsBlank(s[b..])
    ensures r == [] <==> IsBlank(s)
    ensures r != [] ==> !IsWhitespace(r[0]) && !IsWhitespace(r[|r| - 1])
    ensures |r| <= |s|
  {
    var a := LeadingBlank(s);
    var t := s[a..];
    var n := TrailingBlank(t);
    // Past the leading whitespace, a non-space character survives rstrip().
    assert a < |s| ==> 0 < n;
    assert IsBlank(s[a + n..]) by { assert s[a + n..] == t[n..]; }
    assert a == |s| ==> s[..a] == s;
    s[a..a + n]
  }
}
