/** Java's 32-bit `int`, `Integer.parseInt` and the decimal text that
    `Integer.toString` (and string concatenation with an `int`) produce,
    restricted to ASCII digits. */
module JavaIntegers {
  import opened Wrappers

  const INT_MIN: int := -0x8000_0000
  const INT_MAX: int := 0x7FFF_FFFF

  /** The values of a Java `int`. */
  type Int32 = x: int | INT_MIN <= x <= INT_MAX

  predicate IsDigit(c: char) {
    '0' <= c <= '9'
  }

  predicate AllDigits(s: string) {
    forall i :: 0 <= i < |s| ==> IsDigit(s[i])
  }

  function DigitChar(d: int): (c: char)
    requires 0 <= d < 10
    ensures IsDigit(c) && c as int - '0' as int == d
  {
    ('0' as int + d) as char
  }

  /** The number an unsigned run of decimal digits denotes. */
  function DigitsValue(s: string): nat
    requires AllDigits(s)
  {
    if |s| == 0 then 0
    else DigitsValue(s[..|s| - 1]) * 10 + (s[|s| - 1] as int - '0' as int)
  }

  /** Decimal text of a natural number, without leading zeros. */
  function NatToString(n: nat): (r: string)
    ensures |r| > 0 && AllDigits(r)
    ensures |r| > 1 ==> r[0] != '0'
  {
    if n < 10 then [DigitChar(n)] else NatToString(n / 10) + [DigitChar(n % 10)]
  }

  /** `Integer.toString(n)`: a leading '-' for negative values. */
  function IntToString(n: int): (r: string)
    ensures |r| > 0
    ensures r[0] == '-' <==> n < 0
    ensures n >= 0 ==> AllDigits(r)
  {
    if n < 0 then "-" + NatToString(-n) else NatToString(n)
  }

  function InRange(v: int): Option<Int32> {
    if INT_MIN <= v <= INT_MAX then Some(v) else None
  }

  /** The text after an optional leading '-' or '+'. */
  function Unsigned(s: string): (u: string)
    ensures |u| <= |s| && u == s[|s| - |u|..]
  {
    if |s| > 0 && (s[0] == '-' || s[0] == '+') then s[1..] else s
  }

  /** The number a sign followed by decimal digits denotes. */
  function SignedValue(s: string): int
    requires AllDigits(Unsigned(s))
  {
    if |s| > 0 && s[0] == '-' then -(DigitsValue(Unsigned(s)) as int) else DigitsValue(Unsigned(s))
  }

  /** `Integer.parseInt(s)` in radix 10: an optional '-' or '+' followed by at
      least one digit, with a value that fits an `int`; `None` stands for the
      `NumberFormatException` thrown otherwise. */
  function ParseInt(s: string): (r: Option<Int32>)
    ensures r.Some? ==> |s| > 0
    ensures r.Some? && s[0] != '-' ==> r.value >= 0
    ensures r.Some? && s[0] == '-' ==> r.value <= 0
    ensures r.Some? ==> (s[0] == '-' || s[0] == '+' || IsDigit(s[0]))
  {
    var digits := Unsigned(s);
    if |digits| == 0 || !AllDigits(digits) then None
    else InRange(SignedValue(s))
  }

  /** What `Integer.parseInt` accepts and what it yields: it succeeds exactly
      for an optional sign followed by at least one digit whose signed value
      fits an `int`, and then yields that value. */
  lemma ParseIntMeaning(s: string)
    ensures ParseInt(s).Some? <==>
      |Unsigned(s)| > 0 && AllDigits(Unsigned(s)) && INT_MIN <= SignedValue(s) <= INT_MAX
    ensures ParseInt(s).Some? ==> ParseInt(s).value == SignedValue(s)
  {
  }

  lemma {:induction false} DigitsValueOfNatToString(n: nat)
    ensures DigitsValue(NatToString(n)) == n
  {
    var r := NatToString(n);
    if n >= 10 {
      DigitsValueOfNatToString(n / 10);
      assert r[..|r| - 1] == NatToString(n / 10);
    }
  }

  /** Reading back what `Integer.toString` wrote gives the same `int`. */
  lemma ParseIntOfIntToString(n: Int32)
    ensures ParseInt(IntToString(n)) == Some(n)
  {
    var s := IntToString(n);
    if n < 0 {
      DigitsValueOfNatToString(-(n as int));
      assert Unsigned(s) == NatToString(-(n as int));
    } else {
      DigitsValueOfNatToString(n);
      assert Unsigned(s) == s;
    }
  }

  function Pow10(k: nat): (p: nat)
    ensures p >= 1
  {
    if k == 0 then 1 else 10 * Pow10(k - 1)
  }

  lemma {:induction false} NatToStringLength(n: nat, k: nat)
    requires 1 <= k && n < Pow10(k)
    ensures |NatToString(n)| <= k
  {
    if n >= 10 {
      assert Pow10(1) == 10;
      assert k >= 2;
      assert n / 10 < Pow10(k - 1);
      NatToStringLength(n / 10, k - 1);
    }
  }

  /** Every `int` is written in at most eleven characters ("-2147483648"). */
  lemma IntToStringLength(n: Int32)
    ensures |IntToString(n)| <= 11
  {
    assert Pow10(10) == 10_000_000_000;
    if n < 0 {
      NatToStringLength(-(n as int), 10);
    } else {
      NatToStringLength(n, 10);
    }
  }
}
