/**
 * `strconv.ParseInt(s, 10, 64)`: an optional `+` or `-` sign followed by
 * one or more ASCII decimal digits whose value fits in an `int64`. With the
 * base given as 10 there is no `0x` prefix and no `_` separator. Syntax
 * errors and range errors are both failures (`None`).
 */
module Decimal {
  import opened Wrappers
  import opened Int64s

  predicate IsDigit(c: char) {
    '0' <= c <= '9'
  }

  predicate AllDigits(s: string) {
    forall k :: 0 <= k < |s| ==> IsDigit(s[k])
  }

  function DigitValue(c: char): nat
    requires IsDigit(c)
  {
    (c as int) - ('0' as int)
  }

  function DigitChar(d: nat): (c: char)
    requires d < 10
    ensures IsDigit(c) && DigitValue(c) == d
  {
    (('0' as int) + d) as char
  }

  /** The value of a string of decimal digits, most significant first. */
  function DigitsValue(s: string): nat
    requires AllDigits(s)
  {
    if s == [] then 0 else DigitsValue(s[..|s| - 1]) * 10 + DigitValue(s[|s| - 1])
  }

  /** The digits after an optional leading sign. */
  function Unsigned(s: string): string
  {
    if s != [] && (s[0] == '+' || s[0] == '-') then s[1..] else s
  }

  function ParseInt(s: string): (r: Option<Int64>)
    ensures r.Some? ==> Unsigned(s) != [] && AllDigits(Unsigned(s))
    ensures r.Some? ==> r.value as int == (if s[0] == '-' then -(DigitsValue(Unsigned(s)) as int) else DigitsValue(Unsigned(s)))
  {
    var digits := Unsigned(s);
    if digits == [] || !AllDigits(digits) then None
    else
      var v: int := if s[0] == '-' then -(DigitsValue(digits) as int) else DigitsValue(digits);
      if InRange(v) then Some(v) else None
  }

  /** The canonical decimal spelling of a natural number (`strconv.FormatInt`). */
  function FormatNat(n: nat): (r: string)
    ensures r != [] && AllDigits(r) && r[0] != '+' && r[0] != '-'
  {
    if n < 10 then [DigitChar(n)] else FormatNat(n / 10) + [DigitChar(n % 10)]
  }

  function FormatInt(x: int): (r: string)
  {
    if x < 0 then "-" + FormatNat(-x as nat) else FormatNat(x as nat)
  }

  lemma {:induction false} DigitsValueFormat(n: nat)
    ensures DigitsValue(FormatNat(n)) == n
  {
    if n >= 10 {
      var s := FormatNat(n);
      DigitsValueFormat(n / 10);
      assert s[..|s| - 1] == FormatNat(n / 10);
    }
  }

  /** Every `int64` survives printing and parsing back. */
  lemma ParseFormat(x: Int64)
    ensures ParseInt(FormatInt(x)) == Some(x)
  {
    var s := FormatInt(x);
    var n: nat := if x < 0 then -(x as int) else x as int;
    assert Unsigned(s) == FormatNat(n);
    DigitsValueFormat(n);
  }

  /** A string holding any character other than a digit after the sign is rejected. */
  lemma RejectsNonDigit(s: string, k: nat)
    requires 0 < k < |s| || (k == 0 < |s| && s[0] != '+' && s[0] != '-')
    requires !IsDigit(s[k])
    ensures ParseInt(s) == None
  {
    if s[0] == '+' || s[0] == '-' {
      assert Unsigned(s)[k - 1] == s[k];
    } else {
      assert Unsigned(s)[k] == s[k];
    }
  }
}
