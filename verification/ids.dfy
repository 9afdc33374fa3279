/**
 * Account identifiers travel in the message header as Java `int`s, but the
 * session registry is keyed by their decimal text: the handler converts with
 * `String.valueOf(int)` on the way in and back with `Integer.valueOf(String)`
 * when it re-addresses a notice. This module models both conversions and
 * proves that the second undoes the first.
 */
module Ids {
  import opened Wrappers

  /** A Java `int`. */
  type Int32 = x: int | -0x8000_0000 <= x < 0x8000_0000

  predicate IsDigit(c: char) { '0' <= c <= '9' }

  function DigitChar(d: nat): (c: char)
    requires d < 10
    ensures IsDigit(c) && c as int - '0' as int == d
  {
    (d + '0' as int) as char
  }

  /** Decimal digits of `n`, most significant first, without leading zeros. */
  function Decimal(n: nat): (s: string)
    decreases n
  {
    if n < 10 then [DigitChar(n)] else Decimal(n / 10) + [DigitChar(n % 10)]
  }

  /** `String.valueOf(int)`: an optional minus sign, then the digits. */
  function ValueOf(i: int): string
  {
    if i < 0 then "-" + Decimal(-i) else Decimal(i)
  }

  /** The value of a non-empty run of ASCII decimal digits. */
  function DigitsValue(s: string): Option<nat>
    decreases |s|
  {
    if |s| == 0 || !IsDigit(s[|s| - 1]) then None
    else
      var d := s[|s| - 1] as int - '0' as int;
      if |s| == 1 then Some(d)
      else match DigitsValue(s[..|s| - 1])
        case None => None
        case Some(v) => Some(10 * v + d)
  }

  /**
   * `Integer.valueOf(String)`: an optional sign, at least one digit, and a
   * value that fits in an `int`; `None` stands for the NumberFormatException
   * thrown otherwise.
   */
  function ParseInt(s: string): Option<Int32>
  {
    if |s| == 0 then None
    else
      var negative := s[0] == '-';
      var digits := if s[0] == '-' || s[0] == '+' then s[1..] else s;
      match DigitsValue(digits)
      case None => None
      case Some(v) =>
        var x: int := if negative then -(v as int) else v;
        if -0x8000_0000 <= x < 0x8000_0000 then Some(x) else None
  }

  lemma {:induction false} DecimalShape(n: nat)
    ensures |Decimal(n)| >= 1 && IsDigit(Decimal(n)[0])
    ensures DigitsValue(Decimal(n)) == Some(n)
    decreases n
  {
    if n >= 10 {
      DecimalShape(n / 10);
      var s := Decimal(n);
      assert s[..|s| - 1] == Decimal(n / 10);
    }
  }

  /** Reading back the text of any `int` gives that `int`. */
  lemma ParseValueOf(i: Int32)
    ensures ParseInt(ValueOf(i)) == Some(i)
  {
    var s := ValueOf(i);
    if i < 0 {
      var n: nat := -(i as int);
      DecimalShape(n);
      assert s[0] == '-' && s[1..] == Decimal(n);
    } else {
      DecimalShape(i);
      assert s[0] != '-' && s[0] != '+';
    }
  }

  /** Distinct identifiers get distinct registry keys. */
  lemma ValueOfInjective(i: Int32, j: Int32)
    ensures ValueOf(i) == ValueOf(j) <==> i == j
  {
    ParseValueOf(i);
    ParseValueOf(j);
  }
}
