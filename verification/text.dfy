/**
 * The few JavaScript string conversions the core relies on: integer `toString()`,
 * `padStart(2, '0')`, `parseInt(s, 16)`, and ASCII case mapping.
 */
module Text {
  import opened Wrappers

  predicate IsDigit(c: char) { '0' <= c <= '9' }

  predicate AllDigits(s: string) { forall i :: 0 <= i < |s| ==> IsDigit(s[i]) }

  function DigitChar(d: nat): (c: char)
    requires d < 10
    ensures IsDigit(c)
  {
    ('0' as int + d) as char
  }

  function DigitValue(c: char): (d: nat)
    requires IsDigit(c)
    ensures d < 10 && DigitChar(d) == c
  {
    c as int - '0' as int
  }

  /** `Number.prototype.toString()` of a non-negative integer: its decimal digits without leading zeros. */
  function DecimalString(n: nat): (s: string)
    ensures |s| >= 1 && AllDigits(s)
    ensures |s| == 1 <==> n < 10
    decreases n
  {
    if n < 10 then [DigitChar(n)] else DecimalString(n / 10) + [DigitChar(n % 10)]
  }

  /** The number a string of decimal digits denotes. */
  function DecimalValue(s: string): (r: nat)
    requires AllDigits(s)
  {
    if s == [] then 0 else DecimalValue(s[..|s| - 1]) * 10 + DigitValue(s[|s| - 1])
  }

  /** Reading back the digits that `toString()` wrote gives the number again. */
  lemma {:induction false} DecimalRoundTrip(n: nat)
    ensures DecimalValue(DecimalString(n)) == n
    decreases n
  {
    if n >= 10 {
      var s := DecimalString(n);
      assert s[..|s| - 1] == DecimalString(n / 10);
      DecimalRoundTrip(n / 10);
    }
  }

  /** `Number.prototype.toString()` of any integer: a minus sign before a negative one's digits. */
  function IntString(i: int): (s: string)
    ensures |s| >= 1
    ensures i >= 0 ==> s == DecimalString(i)
    ensures i < 0 ==> s[0] == '-' && s[1..] == DecimalString(-i)
  {
    if i < 0 then "-" + DecimalString(-i) else DecimalString(i)
  }

  /** `padStart(2, '0')`: a one-character (or empty) string gets leading zeros up to length 2. */
  function PadStart2(s: string): (r: string)
    ensures |s| >= 2 ==> r == s
    ensures |s| < 2 ==> |r| == 2 && r[2 - |s|..] == s && forall i :: 0 <= i < 2 - |s| ==> r[i] == '0'
  {
    if |s| >= 2 then s else seq(2 - |s|, _ => '0') + s
  }

  predicate IsHexDigit(c: char) { '0' <= c <= '9' || 'a' <= c <= 'f' || 'A' <= c <= 'F' }

  predicate AllHexDigits(s: string) { forall i :: 0 <= i < |s| ==> IsHexDigit(s[i]) }

  /** The value of a hexadecimal digit (0 for any other character). */
  function HexValue(c: char): (d: nat)
    ensures d < 16
  {
    if '0' <= c <= '9' then c as int - '0' as int
    else if 'a' <= c <= 'f' then c as int - 'a' as int + 10
    else if 'A' <= c <= 'F' then c as int - 'A' as int + 10
    else 0
  }

  /** The lower-case hexadecimal digit for a value below 16. */
  const LowerHexDigits: string := "0123456789abcdef"

  function HexDigitChar(d: nat): (c: char)
    requires d < 16
    ensures IsHexDigit(c) && HexValue(c) == d
  {
    LowerHexDigits[d]
  }

  /** How many hexadecimal digits `s` starts with. */
  function HexPrefixLength(s: string): (n: nat)
    ensures n <= |s|
    ensures forall i :: 0 <= i < n ==> IsHexDigit(s[i])
    ensures n < |s| ==> !IsHexDigit(s[n])
  {
    if s == [] || !IsHexDigit(s[0]) then 0
    else
      var rest := HexPrefixLength(s[1..]);
      assert forall i :: 1 <= i < 1 + rest ==> s[i] == s[1..][i - 1];
      1 + rest
  }

  /** The number a string of hexadecimal digits denotes, most significant digit first. */
  function HexNumber(s: string): (r: nat)
    ensures |s| <= 1 ==> r < 16
    ensures |s| <= 2 ==> r < 256
  {
    if s == [] then 0 else HexNumber(s[..|s| - 1]) * 16 + HexValue(s[|s| - 1])
  }

  /**
   * `parseInt(s, 16)`: the value of the longest run of hexadecimal digits at the start
   * of `s`, or `None` (JavaScript's NaN) when `s` does not start with one.
   */
  function ParseHexInt(s: string): (r: Option<nat>)
    ensures r.None? <==> s == [] || !IsHexDigit(s[0])
    ensures AllHexDigits(s) && s != [] ==> r == Some(HexNumber(s))
    ensures |s| <= 2 && r.Some? ==> r.value < 256
  {
    var n := HexPrefixLength(s);
    if n == 0 then None
    else
      assert AllHexDigits(s) ==> s[..n] == s;
      Some(HexNumber(s[..n]))
  }

  /** Two hexadecimal digits parse to sixteen times the first plus the second. */
  lemma ParseTwoHexDigits(a: char, b: char)
    requires IsHexDigit(a) && IsHexDigit(b)
    ensures ParseHexInt([a, b]) == Some(16 * HexValue(a) + HexValue(b))
  {
    var s := [a, b];
    assert AllHexDigits(s);
    assert s[..1] == [a];
    assert [a][..0] == [];
    assert HexNumber([a]) == HexValue(a);
    assert HexNumber(s) == 16 * HexValue(a) + HexValue(b);
  }

  /** A byte as two lower-case hexadecimal digits, as in `#rrggbb`. */
  function HexByte(b: nat): (s: string)
    requires b < 256
    ensures |s| == 2 && AllHexDigits(s) && 16 * HexValue(s[0]) + HexValue(s[1]) == b
  {
    [HexDigitChar(b / 16), HexDigitChar(b % 16)]
  }

  /** `indexOf(c)` on a string: the first position of `c`, or -1. */
  function FirstIndexOf(s: string, c: char): (i: int)
    ensures -1 <= i < |s|
    ensures i == -1 <==> c !in s
    ensures i >= 0 ==> s[i] == c && c !in s[..i]
  {
    if s == [] then -1
    else if s[0] == c then 0
    else
      var rest := FirstIndexOf(s[1..], c);
      if rest == -1 then -1
      else
        assert s[..rest + 1] == [s[0]] + s[1..][..rest];
        rest + 1
  }

  /** The first occurrence is the one position holding `c` with no `c` before it. */
  lemma FirstIndexOfAt(s: string, c: char, k: nat)
    requires k < |s| && s[k] == c && c !in s[..k]
    ensures FirstIndexOf(s, c) == k
  {
  }

  /** `replace(c, to)` with a one-character string pattern: only the first occurrence is replaced. */
  function ReplaceFirst(s: string, c: char, to: string): (r: string)
    ensures c !in s ==> r == s
    ensures c in s ==> var i := FirstIndexOf(s, c); r == s[..i] + to + s[i + 1..]
  {
    var i := FirstIndexOf(s, c);
    if i == -1 then s else s[..i] + to + s[i + 1..]
  }

  /** Lower-case ASCII letters become capitals; every other character is kept. */
  function AsciiUpper(c: char): (r: char)
    ensures 'a' <= c <= 'z' ==> 'A' <= r <= 'Z'
    ensures !('a' <= c <= 'z') ==> r == c
    ensures !('a' <= r <= 'z')
  {
    if 'a' <= c <= 'z' then (c as int - 32) as char else c
  }

  /** Capital ASCII letters become lower case, undoing `AsciiUpper`; every other character is kept. */
  function AsciiLower(c: char): (r: char)
    ensures 'A' <= c <= 'Z' ==> 'a' <= r <= 'z' && AsciiUpper(r) == c
    ensures !('A' <= c <= 'Z') ==> r == c
    ensures !('A' <= r <= 'Z')
  {
    if 'A' <= c <= 'Z' then (c as int + 32) as char else c
  }

  /** Lower-casing after upper-casing is the same as lower-casing. */
  lemma LowerOfUpper(c: char)
    ensures AsciiLower(AsciiUpper(c)) == AsciiLower(c)
  {
    if 'a' <= c <= 'z' {
      assert 'A' <= AsciiUpper(c) <= 'Z';
    }
  }

  /** `toUpperCase()` on ASCII letters. */
  function UpperCase(s: string): (r: string)
    ensures |r| == |s| && forall i :: 0 <= i < |s| ==> r[i] == AsciiUpper(s[i])
  {
    seq(|s|, i requires 0 <= i < |s| => AsciiUpper(s[i]))
  }

  /** `toLowerCase()` on ASCII letters. */
  function LowerCase(s: string): (r: string)
    ensures |r| == |s| && forall i :: 0 <= i < |s| ==> r[i] == AsciiLower(s[i])
  {
    seq(|s|, i requires 0 <= i < |s| => AsciiLower(s[i]))
  }
}
