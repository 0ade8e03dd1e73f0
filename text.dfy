/** The handful of Python string operations the core relies on. */
module Text {

  /**
   * `str.isspace` for one character: the ASCII whitespace and separator
   * controls together with the Unicode space and line/paragraph separators.
   */
  predicate IsSpace(c: char) {
    c == ' ' || c == '\t' || c == '\n' || c == '\r' || c == '\U{000B}' || c == '\U{000C}'
    || ('\U{001C}' <= c <= '\U{001F}')
    || c == '\U{0085}' || c == '\U{00A0}' || c == '\U{1680}'
    || ('\U{2000}' <= c <= '\U{200A}')
    || c == '\U{2028}' || c == '\U{2029}' || c == '\U{202F}' || c == '\U{205F}' || c == '\U{3000}'
  }

  /** `s.endswith("\n")`. */
  predicate EndsWithNewline(s: string) {
    |s| > 0 && s[|s| - 1] == '\n'
  }

  /**
   * `s.rstrip()`: the longest prefix of `s` that does not end in whitespace.
   * Everything cut off is whitespace; leading whitespace is kept.
   */
  function RStrip(s: string): (r: string)
    ensures |r| <= |s| && r == s[..|r|]
    ensures |r| > 0 ==> !IsSpace(r[|r| - 1])
    ensures forall i :: |r| <= i < |s| ==> IsSpace(s[i])
  {
    if |s| > 0 && IsSpace(s[|s| - 1]) then RStrip(s[..|s| - 1]) else s
  }

  /** The three postconditions of RStrip determine its result: any other cut is not `rstrip`. */
  lemma RStripUnique(s: string, p: string)
    requires |p| <= |s| && p == s[..|p|]
    requires |p| > 0 ==> !IsSpace(p[|p| - 1])
    requires forall i :: |p| <= i < |s| ==> IsSpace(s[i])
    ensures p == RStrip(s)
  {
  }

  /** Stripping twice is stripping once. */
  lemma RStripIdempotent(s: string)
    ensures RStrip(RStrip(s)) == RStrip(s)
  {
    var r := RStrip(s);
    RStripUnique(r, r);
  }

  /** Whitespace appended after a string is exactly what `rstrip` removes again. */
  lemma RStripTrailingSpace(s: string, w: string)
    requires |s| > 0 ==> !IsSpace(s[|s| - 1])
    requires forall i :: 0 <= i < |w| ==> IsSpace(w[i])
    ensures RStrip(s + w) == s
  {
    var t := s + w;
    assert t[..|s|] == s;
    forall i | |s| <= i < |t| ensures IsSpace(t[i]) {
      assert t[i] == w[i - |s|];
    }
    RStripUnique(t, s);
  }

  /** A run of `n` spaces. */
  function Spaces(n: nat): (r: string)
    ensures |r| == n
    ensures forall i :: 0 <= i < n ==> r[i] == ' '
  {
    if n == 0 then "" else Spaces(n - 1) + " "
  }

  /**
   * `"%-<width>s" % s`: `s` left-justified in a field of `width` characters,
   * padded with spaces on the right and never truncated.
   */
  function PadRight(s: string, width: nat): (r: string)
    ensures |r| == if |s| < width then width else |s|
    ensures r[..|s|] == s
    ensures forall i :: |s| <= i < |r| ==> r[i] == ' '
  {
    if |s| < width then s + Spaces(width - |s|) else s
  }

  /** `"".join(ss)`. */
  function Concat(ss: seq<string>): string {
    if ss == [] then "" else Concat(ss[..|ss| - 1]) + ss[|ss| - 1]
  }
}
