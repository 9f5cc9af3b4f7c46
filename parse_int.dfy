/**
 * JavaScript's `parseInt(string)` without a radix argument, as the job
 * query applies it to the `id` parameter: leading white space is skipped, an
 * optional sign is read, a `0x`/`0X` prefix selects base 16 (base 10
 * otherwise), and the longest run of digits of that base is read. No digit
 * at all gives NaN, here `None`. Values beyond 2^53, where the source's
 * doubles lose precision, are not modelled: the result is the exact integer.
 */
module JsParseInt {
  import opened Wrappers

  /** The StrWhiteSpaceChar set of ECMAScript: white space and line terminators. */
  predicate IsStrWhiteSpace(c: char) {
    var n := c as int;
    n == 0x09 || n == 0x0A || n == 0x0B || n == 0x0C || n == 0x0D || n == 0x20 ||
    n == 0xA0 || n == 0x1680 || (0x2000 <= n <= 0x200A) || n == 0x2028 || n == 0x2029 ||
    n == 0x202F || n == 0x205F || n == 0x3000 || n == 0xFEFF
  }

  function TrimStart(s: string): (t: string)
    ensures |t| <= |s| && t == s[|s| - |t|..]
    ensures |t| > 0 ==> !IsStrWhiteSpace(t[0])
    ensures forall i :: 0 <= i < |s| - |t| ==> IsStrWhiteSpace(s[i])
  {
    if |s| > 0 && IsStrWhiteSpace(s[0]) then TrimStart(s[1..]) else s
  }

  /** The value of `c` as a digit of any base up to 36, or 36 when it is none. */
  function DigitValue(c: char): (d: nat)
    ensures d <= 36
  {
    if '0' <= c <= '9' then (c as int - '0' as int)
    else if 'a' <= c <= 'z' then (c as int - 'a' as int) + 10
    else if 'A' <= c <= 'Z' then (c as int - 'A' as int) + 10
    else 36
  }

  predicate IsDigit(c: char, radix: nat) {
    DigitValue(c) < radix
  }

  /** The longest prefix of `s` made of digits of `radix`. */
  function DigitPrefix(s: string, radix: nat): (p: string)
    ensures |p| <= |s| && p == s[..|p|]
    ensures forall i :: 0 <= i < |p| ==> IsDigit(p[i], radix)
    ensures |p| < |s| ==> !IsDigit(s[|p|], radix)
  {
    if |s| > 0 && IsDigit(s[0], radix) then [s[0]] + DigitPrefix(s[1..], radix) else []
  }

  /** The number the digits `ds` denote in `radix`, most significant first. */
  function DigitsValue(ds: string, radix: nat): nat
    requires forall i :: 0 <= i < |ds| ==> IsDigit(ds[i], radix)
  {
    if |ds| == 0 then 0
    else DigitsValue(ds[..|ds| - 1], radix) * radix + DigitValue(ds[|ds| - 1])
  }

  /** Drops one leading `-` or `+`. */
  function Unsigned(t: string): (u: string)
    ensures u == t || (|t| > 0 && u == t[1..])
  {
    if |t| > 0 && (t[0] == '-' || t[0] == '+') then t[1..] else t
  }

  predicate HasHexPrefix(u: string) {
    |u| >= 2 && u[0] == '0' && (u[1] == 'x' || u[1] == 'X')
  }

  /**
   * NaN exactly when no digit of the selected base follows the blanks, the
   * sign and a hexadecimal prefix; a negative value only after a leading
   * minus, and never a positive one after it.
   */
  function ParseInt(s: string): (r: Option<int>)
    ensures var u := Unsigned(TrimStart(s));
      r.None? <==> |DigitPrefix(if HasHexPrefix(u) then u[2..] else u, if HasHexPrefix(u) then 16 else 10)| == 0
    ensures |TrimStart(s)| == 0 ==> r.None?
    ensures r.Some? && r.value < 0 ==> |TrimStart(s)| > 0 && TrimStart(s)[0] == '-'
    ensures r.Some? && |TrimStart(s)| > 0 && TrimStart(s)[0] == '-' ==> r.value <= 0
  {
    var t := TrimStart(s);
    var u := Unsigned(t);
    var radix := if HasHexPrefix(u) then 16 else 10;
    var digits := DigitPrefix(if HasHexPrefix(u) then u[2..] else u, radix);
    if |digits| == 0 then None
    else
      var value: int := DigitsValue(digits, radix);
      Some(if |t| > 0 && t[0] == '-' then -value else value)
  }

  /** The decimal rendering of a natural number, without leading zeros. */
  function DecimalString(n: nat): (s: string)
    ensures |s| >= 1
    ensures forall i :: 0 <= i < |s| ==> IsDigit(s[i], 10)
    ensures n > 0 ==> s[0] != '0'
  {
    if n < 10 then [('0' as int + n) as char]
    else DecimalString(n / 10) + [('0' as int + n % 10) as char]
  }

  lemma {:induction false} DecimalStringValue(n: nat)
    ensures DigitsValue(DecimalString(n), 10) == n
  {
    var s := DecimalString(n);
    if n >= 10 {
      DecimalStringValue(n / 10);
      assert s[..|s| - 1] == DecimalString(n / 10);
    }
  }

  lemma {:induction false} DigitPrefixOfDigits(s: string, radix: nat)
    requires forall i :: 0 <= i < |s| ==> IsDigit(s[i], radix)
    ensures DigitPrefix(s, radix) == s
  {
    if |s| > 0 {
      DigitPrefixOfDigits(s[1..], radix);
    }
  }

  /**
   * `parseInt` reads back the decimal rendering of any integer, with a
   * leading minus sign for a negative one.
   */
  lemma ParseIntOfDecimal(n: int)
    ensures ParseInt(if n < 0 then "-" + DecimalString(-n) else DecimalString(n)) == Some(n)
  {
    var m: nat := if n < 0 then -n else n;
    var d := DecimalString(m);
    var s := if n < 0 then "-" + d else d;
    assert !IsStrWhiteSpace(s[0]);
    assert TrimStart(s) == s;
    var u := if n < 0 then s[1..] else s;
    assert u == d;
    DigitPrefixOfDigits(d, 10);
    DecimalStringValue(m);
    if |d| >= 2 {
      assert IsDigit(d[1], 10);
    }
  }

  /** Text without a decimal digit is NaN. */
  lemma ParseIntNeedsADigit(s: string)
    requires forall i :: 0 <= i < |s| ==> !IsDigit(s[i], 10)
    ensures ParseInt(s) == None
  {
    var u := Unsigned(TrimStart(s));
    assert u == s[|s| - |u|..];
    if |u| > 0 {
      assert u[0] == s[|s| - |u|];
      assert !HasHexPrefix(u);
    }
  }
}
