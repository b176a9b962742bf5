/**
 Decimal text of natural numbers, as written by an output stream and read back
 digit by digit (`total * 10 + digit`) by the protocol parsers.
 */
module Decimal {

  predicate IsDigit(c: char) {
    '0' <= c <= '9'
  }

  predicate AllDigits(s: string) {
    forall i :: 0 <= i < |s| ==> IsDigit(s[i])
  }

  function DigitValue(c: char): nat
    requires IsDigit(c)
  {
    c as int - '0' as int
  }

  function DigitChar(d: nat): (c: char)
    requires d < 10
    ensures IsDigit(c) && DigitValue(c) == d
  {
    ('0' as int + d) as char
  }

  function Digits(n: nat): (s: string)
    ensures s != [] && AllDigits(s)
  {
    if n < 10 then [DigitChar(n)] else Digits(n / 10) + [DigitChar(n % 10)]
  }

  function Value(s: string): nat
    requires AllDigits(s)
  {
    if s == [] then 0 else Value(s[..|s| - 1]) * 10 + DigitValue(s[|s| - 1])
  }

  lemma ValueSnoc(s: string, c: char)
    ensures AllDigits(s + [c]) <==> AllDigits(s) && IsDigit(c)
    ensures AllDigits(s + [c]) ==> Value(s + [c]) == Value(s) * 10 + DigitValue(c)
  {
    assert forall i :: 0 <= i < |s| ==> (s + [c])[i] == s[i];
    assert (s + [c])[|s|] == c;
    assert (s + [c])[..|s|] == s;
  }

  lemma {:induction false} ValueOfDigits(n: nat)
    ensures Value(Digits(n)) == n
  {
    if n < 10 {
      assert Digits(n)[..0] == [];
    } else {
      ValueOfDigits(n / 10);
      assert Digits(n)[..|Digits(n)| - 1] == Digits(n / 10);
    }
  }

  // A digit stands for its place in "0123456789", printed and read.
  lemma DigitsAreDecimal(d: nat)
    requires d < 10
    ensures Digits(d) == ["0123456789"[d]] && AllDigits(["0123456789"[d]]) && Value(["0123456789"[d]]) == d
  {
    assert IsDigit("0123456789"[d]) && DigitValue("0123456789"[d]) == d && DigitChar(d) == "0123456789"[d];
    assert [DigitChar(d)][..0] == [];
  }

  // And each digit counts ten times as much as the one behind it.
  lemma Positional(n: nat, d: nat, s: string)
    requires d < 10 && AllDigits(s)
    ensures n > 0 ==> Digits(10 * n + d) == Digits(n) + ["0123456789"[d]]
    ensures AllDigits(s + ["0123456789"[d]]) && Value(s + ["0123456789"[d]]) == 10 * Value(s) + d
  {
    DigitsAreDecimal(d);
    ValueSnoc(s, "0123456789"[d]);
    assert DigitChar(d) == "0123456789"[d] && DigitValue("0123456789"[d]) == d;
    assert (10 * n + d) / 10 == n && (10 * n + d) % 10 == d;
  }

  // Printing is the shortest way to write a value in digits.
  lemma {:induction false} DigitsShortest(s: string)
    requires s != [] && AllDigits(s)
    ensures |Digits(Value(s))| <= |s|
  {
    var init := s[..|s| - 1];
    if init == [] {
      assert Value(s) < 10;
    } else {
      DigitsShortest(init);
      if Value(s) >= 10 {
        assert Value(s) / 10 == Value(init);
      }
    }
  }

  lemma {:induction false} DigitsMonotone(m: nat, n: nat)
    requires m <= n
    ensures |Digits(m)| <= |Digits(n)|
  {
    if m >= 10 {
      DigitsMonotone(m / 10, n / 10);
    }
  }
}
