/**
 * JavaScript strings as the request handler sees them: sequences of UTF-16
 * code units, with `length` counting code units and `trim` removing the
 * ECMAScript WhiteSpace and LineTerminator code points from both ends.
 */
module JsString {

  /** One UTF-16 code unit, the element of a JavaScript string. */
  newtype CodeUnit = x: int | 0 <= x < 0x1_0000

  /** A JavaScript string; `|s|` is its `length`. */
  type Text = seq<CodeUnit>

  /**
   * The JavaScript string denoted by a string literal of the handler's source:
   * each Unicode scalar value becomes one code unit, or a surrogate pair when
   * it lies outside the Basic Multilingual Plane.
   */
  function Utf16(s: string): Text
  {
    if s == [] then []
    else
      var c := s[0] as int;
      (if c < 0x1_0000 then [c as CodeUnit]
       else [(0xD800 + (c - 0x1_0000) / 0x400) as CodeUnit,
             (0xDC00 + (c - 0x1_0000) % 0x400) as CodeUnit])
      + Utf16(s[1..])
  }

  /**
   * The code units `String.prototype.trim` removes: the WhiteSpace code points
   * (tab, vertical tab, form feed, zero-width no-break space and the Unicode
   * space separators) and the LineTerminator code points of ECMAScript.
   */
  predicate IsWhitespace(u: CodeUnit)
  {
    || u == 0x09 || u == 0x0A || u == 0x0B || u == 0x0C || u == 0x0D
    || u == 0x20 || u == 0xA0 || u == 0x1680
    || (0x2000 <= u <= 0x200A)
    || u == 0x2028 || u == 0x2029 || u == 0x202F || u == 0x205F
    || u == 0x3000 || u == 0xFEFF
  }

  predicate AllWhitespace(s: Text)
  {
    forall i :: 0 <= i < |s| ==> IsWhitespace(s[i])
  }

  /** How many whitespace code units `s` starts with. */
  function LeadingWhitespace(s: Text): (n: nat)
    ensures n <= |s|
    ensures forall i :: 0 <= i < n ==> IsWhitespace(s[i])
    ensures n == |s| || !IsWhitespace(s[n])
  {
    if s != [] && IsWhitespace(s[0]) then 1 + LeadingWhitespace(s[1..]) else 0
  }

  /** How many whitespace code units `s` ends with. */
  function TrailingWhitespace(s: Text): (n: nat)
    ensures n <= |s|
    ensures forall i :: |s| - n <= i < |s| ==> IsWhitespace(s[i])
    ensures n == |s| || !IsWhitespace(s[|s| - 1 - n])
  {
    if s != [] && IsWhitespace(s[|s| - 1]) then 1 + TrailingWhitespace(s[..|s| - 1]) else 0
  }

  /**
   * `String.prototype.trim`: `s` without its leading and trailing whitespace.
   * The result is empty exactly when `s` is whitespace only; otherwise it is the
   * slice of `s` between the leading and the trailing whitespace, and it
   * neither starts nor ends with whitespace.
   */
  function Trim(s: Text): (r: Text)
    ensures r == [] <==> AllWhitespace(s)
    ensures r != [] ==> r == s[LeadingWhitespace(s)..|s| - TrailingWhitespace(s)]
    ensures r != [] ==> !IsWhitespace(r[0]) && !IsWhitespace(r[|r| - 1])
  {
    var lead := LeadingWhitespace(s);
    if lead == |s| then []
    else s[lead..|s| - TrailingWhitespace(s)]
  }

  /**
   * `Trim` is the only way to split a string into whitespace, a core that
   * neither starts nor ends with whitespace, and whitespace.
   */
  lemma TrimUnique(front: Text, core: Text, back: Text)
    requires AllWhitespace(front) && AllWhitespace(back)
    requires core == [] || (!IsWhitespace(core[0]) && !IsWhitespace(core[|core| - 1]))
    ensures Trim(front + core + back) == core
  {
    var s := front + core + back;
    if core == [] {
      assert AllWhitespace(s);
    } else {
      var lead, trail := LeadingWhitespace(s), TrailingWhitespace(s);
      assert s[|front|] == core[0];
      assert s[|s| - 1 - |back|] == core[|core| - 1];
      assert lead == |front|;
      assert trail == |back|;
      assert s[lead..|s| - trail] == core;
    }
  }

  /** Whitespace around a string does not change what `trim` returns. */
  lemma TrimIgnoresPadding(front: Text, s: Text, back: Text)
    requires AllWhitespace(front) && AllWhitespace(back)
    ensures Trim(front + s + back) == Trim(s)
  {
    var r := Trim(s);
    if r == [] {
      assert AllWhitespace(front + s + back);
    } else {
      var lead, end := LeadingWhitespace(s), |s| - TrailingWhitespace(s);
      assert s == s[..lead] + r + s[end..];
      assert front + s + back == (front + s[..lead]) + r + (s[end..] + back);
      TrimUnique(front + s[..lead], r, s[end..] + back);
    }
  }

  /** Trimming twice is trimming once. */
  lemma TrimIdempotent(s: Text)
    ensures Trim(Trim(s)) == Trim(s)
  {
    var r := Trim(s);
    assert r == [] + r + [];
    TrimUnique([], r, []);
  }
}
