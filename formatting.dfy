/** Decimal rendering of an `int`, as C# string interpolation writes it in
    a culture whose negative sign is '-' (optional '-' then the digits, no
    leading zeros), and
    the parser that undoes it. The reservation worker interpolates the order
    id into the blob name; the parser exists to prove that name determines
    the id. */
module Formatting {
  import opened Domain

  predicate IsDigit(c: char) {
    '0' <= c <= '9'
  }

  predicate IsDigits(s: string) {
    forall i :: 0 <= i < |s| ==> IsDigit(s[i])
  }

  function DigitChar(d: nat): (c: char)
    requires d < 10
    ensures IsDigit(c)
  {
    (48 + d) as char
  }

  function DigitValue(c: char): (d: nat)
    requires IsDigit(c)
    ensures d < 10 && DigitChar(d) == c
  {
    c as int - 48
  }

  /** The shortest decimal numeral of `n`. */
  function NatToString(n: nat): (s: string)
    ensures |s| > 0 && IsDigits(s)
    ensures s[0] == '0' <==> n == 0
    decreases n
  {
    if n < 10 then [DigitChar(n)] else NatToString(n / 10) + [DigitChar(n % 10)]
  }

  /** Optional '-', then the digits of the magnitude, with no leading zero
      unless the value is 0. */
  function IntToString(i: int): (s: string)
    ensures |s| > 0
    ensures s[0] == '-' <==> i < 0
    ensures var d := if i < 0 then s[1..] else s;
      |d| > 0 && IsDigits(d) && (d[0] == '0' <==> i == 0)
  {
    if i < 0 then "-" + NatToString(-i) else NatToString(i)
  }

  /** The value of a numeral, most significant digit first. */
  function ParseDigits(s: string): nat
    requires IsDigits(s)
    decreases |s|
  {
    if s == [] then 0 else ParseDigits(s[..|s| - 1]) * 10 + DigitValue(s[|s| - 1])
  }

  function ParseInt(s: string): Option<int> {
    if |s| > 1 && s[0] == '-' && IsDigits(s[1..]) then Some(0 - ParseDigits(s[1..]) as int)
    else if |s| > 0 && IsDigits(s) then Some(ParseDigits(s))
    else None
  }

  lemma {:induction false} ParseNatToString(n: nat)
    ensures ParseDigits(NatToString(n)) == n
    decreases n
  {
    if n >= 10 {
      var s := NatToString(n);
      assert s[..|s| - 1] == NatToString(n / 10);
      ParseNatToString(n / 10);
    }
  }

  /** Parsing undoes rendering, for every int. */
  lemma IntToStringRoundTrip(i: int)
    ensures ParseInt(IntToString(i)) == Some(i)
  {
    var s := IntToString(i);
    if i < 0 {
      assert s[1..] == NatToString(-i);
      assert |s| > 1 && s[0] == '-' && IsDigits(s[1..]);
      ParseNatToString(-i);
      assert ParseInt(s) == Some(0 - ParseDigits(s[1..]) as int);
    } else {
      assert s == NatToString(i) && s[0] != '-';
      ParseNatToString(i);
    }
  }

  /** Distinct ints are rendered as distinct strings. */
  lemma IntToStringInjective(a: int, b: int)
    ensures IntToString(a) == IntToString(b) <==> a == b
  {
    IntToStringRoundTrip(a);
    IntToStringRoundTrip(b);
  }
}
