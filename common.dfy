/** Values and string helpers shared by the dashboard and the charts page:
    an Option for JavaScript's null/undefined, and the behaviour of the
    JavaScript string built-ins the pipeline relies on (trim, length,
    includes). */
module Common {

  /** A value that may be absent (null or undefined in the source). */
  datatype Option<+T> = None | Some(value: T)

  /** The characters String.prototype.trim removes: the ECMAScript
      WhiteSpace and LineTerminator code points. */
  predicate IsJsWhitespace(c: char) {
    || c == '\t' || c == '\n' || c == '\U{B}' || c == '\U{C}' || c == '\r'
    || c == ' ' || c == '\U{A0}' || c == '\U{1680}'
    || ('\U{2000}' <= c <= '\U{200A}')
    || c == '\U{2028}' || c == '\U{2029}' || c == '\U{202F}' || c == '\U{205F}'
    || c == '\U{3000}' || c == '\U{FEFF}'
  }

  /** Every character of s is whitespace. */
  ghost predicate AllWhitespace(s: string) {
    forall i :: 0 <= i < |s| ==> IsJsWhitespace(s[i])
  }

  /** The index of the first character of s at or after i that is not
      whitespace, or |s| when there is none. */
  function LeadingEnd(s: string, i: nat): (k: nat)
    requires i <= |s|
    ensures i <= k <= |s|
    ensures forall m :: i <= m < k ==> IsJsWhitespace(s[m])
    ensures k == |s| || !IsJsWhitespace(s[k])
    decreases |s| - i
  {
    if i < |s| && IsJsWhitespace(s[i]) then LeadingEnd(s, i + 1) else i
  }

  /** The index just past the last character of s before j that is not
      whitespace, or 0 when there is none. */
  function TrailingStart(s: string, j: nat): (k: nat)
    requires j <= |s|
    ensures k <= j
    ensures forall m :: k <= m < j ==> IsJsWhitespace(s[m])
    ensures k == 0 || !IsJsWhitespace(s[k - 1])
  {
    if j > 0 && IsJsWhitespace(s[j - 1]) then TrailingStart(s, j - 1) else j
  }

  /** The first half of `trim`: s with its leading whitespace removed. */
  function TrimStart(s: string): string {
    s[LeadingEnd(s, 0)..]
  }

  /** The second half of `trim`: s with its trailing whitespace removed. */
  function TrimEnd(s: string): string {
    s[..TrailingStart(s, |s|)]
  }

  /** String.prototype.trim. */
  function Trim(s: string): string {
    TrimEnd(TrimStart(s))
  }

  /** `s.trim() === ''`: the test the source uses for a blank input. */
  predicate IsBlank(s: string) {
    Trim(s) == ""
  }

  /** Trimming removes whitespace at both ends and nothing else: what is left
      is a contiguous part of s that neither starts nor ends with
      whitespace, and everything cut off around it is whitespace. */
  lemma TrimShape(s: string)
    ensures var k, r := LeadingEnd(s, 0), Trim(s);
      && k + |r| <= |s| && r == s[k..k + |r|]
      && (r == [] || (!IsJsWhitespace(r[0]) && !IsJsWhitespace(r[|r| - 1])))
      && (forall m :: 0 <= m < k ==> IsJsWhitespace(s[m]))
      && (forall m :: k + |r| <= m < |s| ==> IsJsWhitespace(s[m]))
  {
    var k := LeadingEnd(s, 0);
    var u := s[k..];
    var t := TrailingStart(u, |u|);
    assert Trim(s) == u[..t];
    forall m | k + t <= m < |s|
      ensures IsJsWhitespace(s[m])
    {
      assert s[m] == u[m - k];
    }
    if t > 0 {
      assert u[0] == s[k];
    }
  }

  /** A string is blank exactly when it consists of whitespace only. */
  lemma BlankIffAllWhitespace(s: string)
    ensures IsBlank(s) <==> AllWhitespace(s)
  {
    TrimShape(s);
  }

  /** The length JavaScript reports for a string: its number of UTF-16 code
      units, two for every code point outside the Basic Multilingual Plane. */
  function Utf16Length(s: string): (n: nat)
    ensures |s| <= n <= 2 * |s|
  {
    if |s| == 0 then 0
    else (if s[0] as int > 0xFFFF then 2 else 1) + Utf16Length(s[1..])
  }

  /** String.prototype.includes: sub occurs in s at some position. */
  predicate Contains(s: string, sub: string) {
    exists i | 0 <= i <= |s| - |sub| :: OccursAt(s, sub, i)
  }

  /** sub occurs in s starting at index i. */
  predicate OccursAt(s: string, sub: string, i: int)
    requires 0 <= i <= |s| - |sub|
  {
    s[i..i + |sub|] == sub
  }
}
