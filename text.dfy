/**
  Text helpers shared by the backend and the frontend: the decimal rendering
  of integers (Rust `format!("{}", i)`, JavaScript template literals) and
  JavaScript's `String.prototype.trim`.
 */
module Text {

  // ---------------------------------------------------------------------------
  // Decimal rendering
  // ---------------------------------------------------------------------------

  predicate IsDigit(c: char)
  {
    '0' <= c <= '9'
  }

  function DigitChar(d: nat): (c: char)
    requires d < 10
    ensures IsDigit(c)
  {
    (48 + d) as char
  }

  /** The shortest decimal numeral of `n`, most significant digit first. */
  function NatToString(n: nat): (s: string)
    ensures |s| >= 1
    ensures forall i :: 0 <= i < |s| ==> IsDigit(s[i])
    ensures n >= 10 ==> |s| >= 2
    decreases n
  {
    if n < 10 then [DigitChar(n)] else NatToString(n / 10) + [DigitChar(n % 10)]
  }

  /** An `i64` as `{}` or a template literal prints it: a minus sign, then digits. */
  function IntToString(i: int): (s: string)
    ensures |s| >= 1
    ensures '|' !in s
    ensures s[0] == '-' <==> i < 0
    ensures forall k :: 0 < k < |s| ==> IsDigit(s[k])
  {
    if i < 0 then "-" + NatToString(-i) else NatToString(i)
  }

  /** Different numbers print differently, so a printed index identifies its number. */
  lemma {:induction false} NatToStringInjective(m: nat, n: nat)
    requires NatToString(m) == NatToString(n)
    ensures m == n
    decreases m
  {
    var sm, sn := NatToString(m), NatToString(n);
    if m < 10 && n < 10 {
      assert DigitChar(m) == sm[0] == sn[0] == DigitChar(n);
    } else if m >= 10 && n >= 10 {
      assert sm == NatToString(m / 10) + [DigitChar(m % 10)];
      assert sn == NatToString(n / 10) + [DigitChar(n % 10)];
      assert sm[..|sm| - 1] == NatToString(m / 10);
      assert sn[..|sn| - 1] == NatToString(n / 10);
      assert DigitChar(m % 10) == sm[|sm| - 1] == sn[|sn| - 1] == DigitChar(n % 10);
      NatToStringInjective(m / 10, n / 10);
    }
  }

  lemma IntToStringInjective(i: int, j: int)
    requires IntToString(i) == IntToString(j)
    ensures i == j
  {
    var si, sj := IntToString(i), IntToString(j);
    assert si[0] == sj[0];
    if i < 0 {
      assert NatToString(-i) == si[1..] == sj[1..] == NatToString(-j);
      NatToStringInjective(-i, -j);
    } else {
      NatToStringInjective(i, j);
    }
  }

  // ---------------------------------------------------------------------------
  // JavaScript trim
  // ---------------------------------------------------------------------------

  /**
    The characters `trim` removes: ECMAScript WhiteSpace (tab, vertical tab,
    form feed, space, no-break space, the byte-order mark and every Unicode
    space separator) and LineTerminator (line feed, carriage return, line and
    paragraph separators).
   */
  predicate IsJsWhitespace(c: char)
  {
    || c == '\t' || c == '\n' || c == '\U{B}' || c == '\U{C}' || c == '\r'
    || c == ' ' || c == '\U{A0}' || c == '\U{1680}'
    || ('\U{2000}' <= c <= '\U{200A}')
    || c == '\U{2028}' || c == '\U{2029}' || c == '\U{202F}' || c == '\U{205F}'
    || c == '\U{3000}' || c == '\U{FEFF}'
  }

  predicate AllWhitespace(s: string)
  {
    forall i :: 0 <= i < |s| ==> IsJsWhitespace(s[i])
  }

  /** Drops leading whitespace: what is removed is whitespace, what remains starts with none. */
  function TrimStart(s: string): (r: string)
    ensures |r| <= |s| && r == s[|s| - |r|..]
    ensures AllWhitespace(s[..|s| - |r|])
    ensures r != [] ==> !IsJsWhitespace(r[0])
    decreases |s|
  {
    if s != [] && IsJsWhitespace(s[0]) then
      var tail := s[1..];
      var r := TrimStart(tail);
      assert s[..|s| - |r|] == [s[0]] + tail[..|tail| - |r|];
      r
    else s
  }

  /** Drops trailing whitespace: what is removed is whitespace, what remains ends with none. */
  function TrimEnd(s: string): (r: string)
    ensures |r| <= |s| && r == s[..|r|]
    ensures AllWhitespace(s[|r|..])
    ensures r != [] ==> !IsJsWhitespace(r[|r| - 1])
    decreases |s|
  {
    if s != [] && IsJsWhitespace(s[|s| - 1]) then
      var init := s[..|s| - 1];
      var r := TrimEnd(init);
      assert s[|r|..] == init[|r|..] + [s[|s| - 1]];
      r
    else s
  }

  /** `String.prototype.trim`: whitespace is gone from both ends. */
  function Trim(s: string): (r: string)
    ensures |r| <= |s|
    ensures r != [] ==> !IsJsWhitespace(r[0]) && !IsJsWhitespace(r[|r| - 1])
  {
    TrimEnd(TrimStart(s))
  }

  /** A trimmed input is blank exactly when the input held nothing but whitespace. */
  lemma TrimBlankIff(s: string)
    ensures Trim(s) == "" <==> AllWhitespace(s)
  {
    var t := TrimStart(s);
    if Trim(s) == "" {
      assert t[0..] == t;
      assert s[..|s| - |t|] == s;
    }
  }

  /** Trimming keeps a non-blank core: the result is a slice of the input, whitespace-free at both ends. */
  lemma TrimIsSlice(s: string)
    ensures var r := Trim(s);
      exists lo, hi :: 0 <= lo <= hi <= |s| && r == s[lo..hi]
        && AllWhitespace(s[..lo]) && AllWhitespace(s[hi..])
    ensures Trim(s) != [] ==> !IsJsWhitespace(Trim(s)[0]) && !IsJsWhitespace(Trim(s)[|Trim(s)| - 1])
  {
    var t := TrimStart(s);
    var r := TrimEnd(t);
    var lo := |s| - |t|;
    var hi := lo + |r|;
    assert r == s[lo..hi];
    assert s[hi..] == t[|r|..];
  }
}
