/**
 * The string helpers the speech manager relies on: Kotlin's `Char.isWhitespace`,
 * `CharSequence.isBlank`, `String.trim()`, and the decimal rendering of an `Int`
 * used by string templates such as "ERROR_UNKNOWN($error)".
 */
module Text {

  /**
   * Kotlin's Char.isWhitespace on the JVM: Java whitespace (tab, line feed,
   * vertical tab, form feed, carriage return, the four information separators,
   * space) together with the Unicode space, line and paragraph separators.
   */
  predicate IsWhitespace(c: char) {
    c in {'\t', '\n', '\U{B}', '\U{C}', '\r', '\U{1C}', '\U{1D}', '\U{1E}', '\U{1F}', ' ',
          '\U{A0}', '\U{1680}', '\U{2000}', '\U{2001}', '\U{2002}', '\U{2003}', '\U{2004}',
          '\U{2005}', '\U{2006}', '\U{2007}', '\U{2008}', '\U{2009}', '\U{200A}', '\U{2028}',
          '\U{2029}', '\U{202F}', '\U{205F}', '\U{3000}'}
  }

  /** isBlank: empty, or whitespace only. */
  predicate IsBlank(s: string) {
    forall i :: 0 <= i < |s| ==> IsWhitespace(s[i])
  }

  /** Drops the leading whitespace: the result is the longest suffix that does not start with whitespace. */
  function TrimStart(s: string): (r: string)
    ensures |r| <= |s| && r == s[|s| - |r|..]
    ensures IsBlank(s[..|s| - |r|])
    ensures r == [] || !IsWhitespace(r[0])
  {
    if s != [] && IsWhitespace(s[0]) then
      var r := TrimStart(s[1..]);
      assert s[..|s| - |r|] == [s[0]] + s[1..][..|s| - 1 - |r|];
      r
    else
      s
  }

  /** Drops the trailing whitespace: the result is the longest prefix that does not end with whitespace. */
  function TrimEnd(s: string): (r: string)
    ensures |r| <= |s| && r == s[..|r|]
    ensures IsBlank(s[|r|..])
    ensures r == [] || !IsWhitespace(r[|r| - 1])
  {
    if s != [] && IsWhitespace(s[|s| - 1]) then
      var r := TrimEnd(s[..|s| - 1]);
      assert s[|r|..] == s[..|s| - 1][|r|..] + [s[|s| - 1]];
      r
    else
      s
  }

  /** `r` is the piece of `s` starting at `i`, with only white space before and after it. */
  predicate BetweenBlanks(s: string, r: string, i: int) {
    0 <= i <= |s| - |r| && r == s[i..][..|r|] && IsBlank(s[..i]) && IsBlank(s[i + |r|..])
  }

  /**
   * String.trim(): the input with its leading and trailing whitespace removed.
   * The result is a contiguous piece of the input between a blank prefix and a
   * blank suffix, starts and ends with a non-whitespace character, and is
   * empty exactly when the input is blank.
   */
  function Trim(s: string): (r: string)
    ensures |r| <= |s|
    ensures exists i :: BetweenBlanks(s, r, i)
    ensures r != [] ==> !IsWhitespace(r[0]) && !IsWhitespace(r[|r| - 1])
    ensures r == [] <==> IsBlank(s)
  {
    TrimSpec(s);
    TrimEnd(TrimStart(s))
  }

  /** Trim's contract, for the front-then-back composition. */
  lemma TrimSpec(s: string)
    ensures var r := TrimEnd(TrimStart(s));
      && |r| <= |s|
      && (exists i :: BetweenBlanks(s, r, i))
      && (r != [] ==> !IsWhitespace(r[0]) && !IsWhitespace(r[|r| - 1]))
      && (r == [] <==> IsBlank(s))
  {
    TrimWitness(s);
    TrimParts(s);
  }

  /** The trimmed text sits right after the leading white space, with only white space after it. */
  lemma TrimWitness(s: string)
    ensures var t := TrimStart(s); BetweenBlanks(s, TrimEnd(t), |s| - |t|)
  {
    TrimParts(s);
    TrimCuts(s);
  }

  /** Trimming the front then the back: the pieces cut off are blank, what is left is a slice of the input. */
  lemma TrimParts(s: string)
    ensures var t := TrimStart(s);
            var r := TrimEnd(t);
            && r == s[|s| - |t|..][..|r|]
            && (r != [] ==> !IsWhitespace(r[0]))
            && (r == [] <==> IsBlank(s))
  {
    var t := TrimStart(s);
    var r := TrimEnd(t);
    if r == [] {
      assert IsBlank(s) by {
        forall i | 0 <= i < |s| ensures IsWhitespace(s[i]) {
          if i >= |s| - |t| {
            assert s[i] == t[|r|..][i - (|s| - |t|)];
          } else {
            assert s[i] == s[..|s| - |t|][i];
          }
        }
      }
    } else {
      assert r[0] == t[0];
      assert !IsWhitespace(s[|s| - |t|]);
    }
  }

  /** What trimming the front then the back cuts off is blank on both sides. */
  lemma TrimCuts(s: string)
    ensures var t := TrimStart(s);
            var r := TrimEnd(t);
            IsBlank(s[..|s| - |t|]) && IsBlank(s[|s| - |t| + |r|..])
  {
    var t := TrimStart(s);
    var r := TrimEnd(t);
    BlankTail(s, t, |s| - |t|, |r|);
  }

  /** A blank tail of a suffix `t` of `s` is a blank tail of `s` itself. */
  lemma BlankTail(s: string, t: string, a: nat, b: nat)
    requires a + |t| == |s| && t == s[a..] && b <= |t|
    requires IsBlank(t[b..])
    ensures IsBlank(s[a + b..])
  {
    assert s[a + b..] == t[b..];
  }

  // ---------------------------------------------------------------------------
  // Decimal rendering of integers.
  // ---------------------------------------------------------------------------

  function DigitChar(d: nat): (c: char)
    requires d < 10
    ensures '0' <= c <= '9'
  {
    ('0' as int + d) as char
  }

  /** The value of a digit character. */
  function DigitValue(c: char): int {
    c as int - '0' as int
  }

  /** The number a string of decimal digits denotes, most significant digit first. */
  function DecimalValue(s: string): int {
    if s == [] then 0 else 10 * DecimalValue(s[..|s| - 1]) + DigitValue(s[|s| - 1])
  }

  /**
   * The decimal digits of `n`, most significant first: they denote `n`, and
   * only 0 itself starts with the digit 0.
   */
  function NatToString(n: nat): (s: string)
    ensures |s| >= 1
    ensures forall i :: 0 <= i < |s| ==> '0' <= s[i] <= '9'
    ensures (n < 10) <==> (|s| == 1)
    ensures DecimalValue(s) == n
    ensures s[0] == '0' <==> n == 0
  {
    if n < 10 then [DigitChar(n)]
    else
      var prefix := NatToString(n / 10);
      var s := prefix + [DigitChar(n % 10)];
      assert s[..|s| - 1] == prefix;
      s
  }

  /**
   * An Int as a Kotlin string template renders it: a minus sign exactly for a
   * negative value, then the digits of the magnitude.
   */
  function IntToString(i: int): (s: string)
    ensures |s| >= 1
    ensures i < 0 <==> s[0] == '-'
    ensures i >= 0 ==> s == NatToString(i) && DecimalValue(s) == i
    ensures i < 0 ==> s[1..] == NatToString(-i) && DecimalValue(s[1..]) == -i
  {
    if i < 0 then "-" + NatToString(-i) else NatToString(i)
  }

  /** Different naturals have different decimal renderings. */
  lemma NatToStringInjective(a: nat, b: nat)
    requires NatToString(a) == NatToString(b)
    ensures a == b
  {
    assert DecimalValue(NatToString(a)) == a;
  }

  /** Different integers have different renderings: the rendering identifies the integer. */
  lemma IntToStringInjective(a: int, b: int)
    requires IntToString(a) == IntToString(b)
    ensures a == b
  {
    var s := IntToString(a);
    if a < 0 {
      assert DecimalValue(s[1..]) == -a == -b;
    }
  }
}
