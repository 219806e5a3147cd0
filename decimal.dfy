/** Go's `%d` verb: the decimal rendering of an integer that the client embeds in
    query strings, together with the parser that inverts it. */
module Decimal {
  import opened Api

  predicate IsDigit(c: char) {
    '0' <= c <= '9'
  }

  predicate AllDigits(s: string) {
    forall i | 0 <= i < |s| :: IsDigit(s[i])
  }

  function DigitValue(c: char): (d: nat)
    requires IsDigit(c)
    ensures d < 10
  {
    c as int - '0' as int
  }

  function DigitChar(d: nat): (c: char)
    requires d < 10
    ensures IsDigit(c) && DigitValue(c) == d
  {
    ('0' as int + d) as char
  }

  /** The digits of `n`, most significant first, without leading zeros. */
  function Digits(n: nat): (s: string)
    ensures |s| > 0 && AllDigits(s)
    ensures s[0] == '0' <==> n == 0
    decreases n
  {
    if n < 10 then [DigitChar(n)] else Digits(n / 10) + [DigitChar(n % 10)]
  }

  /** The number a non-empty run of digits denotes. */
  function ValueOf(s: string): (v: nat)
    requires AllDigits(s)
    decreases |s|
  {
    if s == [] then 0 else ValueOf(s[..|s| - 1]) * 10 + DigitValue(s[|s| - 1])
  }

  /** Renders `n` as `%d` does: an optional minus sign followed by the digits of |n|. */
  function FormatInt(n: int): (s: string)
  {
    if n < 0 then "-" + Digits(-n) else Digits(n)
  }

  /** Reads back a rendering produced by `FormatInt`; anything else is rejected. */
  function ParseInt(s: string): (r: Option<int>)
  {
    if |s| > 1 && s[0] == '-' && AllDigits(s[1..]) && s[1] != '0' then Some(-(ValueOf(s[1..]) as int))
    else if |s| > 0 && AllDigits(s) && (s[0] != '0' || |s| == 1) then Some(ValueOf(s))
    else None
  }

  lemma {:induction false} DigitsValue(n: nat)
    ensures ValueOf(Digits(n)) == n
    decreases n
  {
    if n >= 10 {
      var s := Digits(n);
      assert s[..|s| - 1] == Digits(n / 10);
      DigitsValue(n / 10);
    }
  }

  lemma DigitsLength(n: nat)
    ensures |Digits(n)| == 1 <==> n < 10
  {
  }

  /** Parsing undoes formatting, for every integer. */
  lemma FormatParseRoundTrip(n: int)
    ensures ParseInt(FormatInt(n)) == Some(n)
  {
    var s := FormatInt(n);
    if n < 0 {
      var d := Digits(-n);
      assert s[1..] == d;
      assert s[1] == d[0] != '0';
      DigitsValue(-n);
    } else {
      DigitsLength(n);
      DigitsValue(n);
      assert s[0] != '-' by { assert IsDigit(s[0]); }
    }
  }

  /** Distinct integers have distinct renderings. */
  lemma FormatIntInjective(a: int, b: int)
    ensures FormatInt(a) == FormatInt(b) <==> a == b
  {
    if FormatInt(a) == FormatInt(b) {
      FormatParseRoundTrip(a);
      FormatParseRoundTrip(b);
    }
  }
}
