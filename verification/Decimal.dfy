/** Decimal numerals: what the program prints with str() and reads back with int(). */
module Decimal {
  import opened Wrappers

  predicate IsDigit(c: char) { '0' <= c <= '9' }

  predicate AllDigits(s: string) { forall i | 0 <= i < |s| :: IsDigit(s[i]) }

  predicate IsNumeral(s: string) { s != "" && AllDigits(s) }

  function DigitOf(d: nat): char
    requires d < 10
  {
    '0' + d as char
  }

  /** str(n) for a natural number. */
  function Digits(n: nat): (s: string)
    ensures IsNumeral(s)
  {
    if n < 10 then [DigitOf(n)] else Digits(n / 10) + [DigitOf(n % 10)]
  }

  /** str(n). */
  function Print(n: int): string {
    if n < 0 then "-" + Digits(-n) else Digits(n)
  }

  /** int(s) for a string of digits. */
  function Value(s: string): nat
    requires AllDigits(s)
  {
    if s == "" then 0 else 10 * Value(s[..|s|-1]) + (s[|s|-1] - '0') as nat
  }

  /** int(s): an optional sign, then digits; anything else raises ValueError. */
  function Parse(s: string): Option<int> {
    if IsNumeral(s) then Some(Value(s))
    else if s != "" && s[0] == '-' && IsNumeral(s[1..]) then Some(0 - Value(s[1..]) as int)
    else if s != "" && s[0] == '+' && IsNumeral(s[1..]) then Some(Value(s[1..]))
    else None
  }

  lemma {:induction false} ValueOfDigits(n: nat)
    ensures Value(Digits(n)) == n
  {
    if n >= 10 {
      var front := Digits(n / 10);
      assert Digits(n)[..|Digits(n)|-1] == front;
      ValueOfDigits(n / 10);
    }
  }

  /** Printing and reading back is the identity on all integers. */
  lemma ParsePrint(n: int)
    ensures Parse(Print(n)) == Some(n)
  {
    if n < 0 { ParseNegative(-n); } else { ValueOfDigits(n); }
  }

  lemma ParseNegative(n: nat)
    ensures Parse("-" + Digits(n)) == Some(0 - n as int)
  {
    var s := "-" + Digits(n);
    assert s[1..] == Digits(n);
    assert s[0] == '-' && !IsNumeral(s) by { assert !IsDigit(s[0]); }
    ValueOfDigits(n);
  }

  // ----- every text that reads as a number -----

  function Zeros(n: nat): string { seq(n, _ => '0') }

  lemma {:induction false} LeadingZeros(n: nat, s: string)
    requires AllDigits(s)
    ensures AllDigits(Zeros(n) + s) && Value(Zeros(n) + s) == Value(s)
    decreases n, |s|
  {
    var t := Zeros(n) + s;
    if s != "" {
      assert t[..|t|-1] == Zeros(n) + s[..|s|-1];
      LeadingZeros(n, s[..|s|-1]);
    } else if n > 0 {
      assert t[..|t|-1] == Zeros(n - 1) + "";
      LeadingZeros(n - 1, "");
    }
  }

  /** A numeral is what is printed for its value, after some zeros. */
  lemma {:induction false} NumeralIsPadded(s: string) returns (n: nat)
    requires IsNumeral(s)
    ensures s == Zeros(n) + Digits(Value(s))
  {
    var front, last := s[..|s|-1], s[|s|-1];
    assert s == front + [last];
    if front == "" {
      n := 0;
    } else {
      var m := NumeralIsPadded(front);
      if Value(front) == 0 {
        n := m + 1;
        assert Zeros(m) + "0" == Zeros(n);
      } else {
        n := m;
      }
    }
  }

  /** The text reads as n: the sign, if any, then zeros, then the digits printed for it. */
  ghost predicate Spells(s: string, n: int) {
    exists sign, k: nat ::
      && s == sign + Zeros(k) + Digits(if n < 0 then -n else n)
      && ((n >= 0 && (sign == "" || sign == "+")) || (n <= 0 && sign == "-"))
  }

  lemma ParsesExactly(s: string, n: int)
    ensures Parse(s) == Some(n) <==> Spells(s, n)
  {
    if Parse(s) == Some(n) { ParsedIsSpelled(s, n); }
    if Spells(s, n) {
      var sign, k: nat :|
        && s == sign + Zeros(k) + Digits(if n < 0 then -n else n)
        && ((n >= 0 && (sign == "" || sign == "+")) || (n <= 0 && sign == "-"));
      SpelledParses(s, n, sign, k);
    }
  }

  lemma ParsedIsSpelled(s: string, n: int)
    requires Parse(s) == Some(n)
    ensures Spells(s, n)
  {
    hide Digits, Value;
    var sign := if IsNumeral(s) then "" else s[..1];
    var unsigned := s[|sign|..];
    assert s == sign + unsigned;
    var k := NumeralIsPadded(unsigned);
    assert s == sign + Zeros(k) + Digits(if n < 0 then -n else n);
  }

  lemma SpelledParses(s: string, n: int, sign: string, k: nat)
    requires s == sign + Zeros(k) + Digits(if n < 0 then -n else n)
    requires (n >= 0 && (sign == "" || sign == "+")) || (n <= 0 && sign == "-")
    ensures Parse(s) == Some(n)
  {
    var digits := Digits(if n < 0 then -n else n);
    LeadingZeros(k, digits);
    ValueOfDigits(if n < 0 then -n else n);
    assert s == sign + (Zeros(k) + digits);
    if sign == "" {
      assert s == Zeros(k) + digits;
    } else {
      assert s[1..] == Zeros(k) + digits;
      assert s[0] == sign[0] && !IsNumeral(s) by { assert !IsDigit(s[0]); }
    }
  }
}
