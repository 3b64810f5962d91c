/**
 * Decimal strings of non-negative integers: what `String(n)` produces for the scores the
 * older scorer writes, and what `Number(s)` reads back when a potential score is taken.
 */
module Decimals {

  /** The digit character for a value below ten. */
  function Digit(n: nat): (ch: char)
    requires n < 10
    ensures '0' <= ch <= '9' && (ch as int) - ('0' as int) == n
  {
    "0123456789"[n]
  }

  /** The value of a digit character. */
  function DigitValue(ch: char): (n: nat)
    requires '0' <= ch <= '9'
    ensures n < 10 && Digit(n) == ch
  {
    (ch as int) - ('0' as int)
  }

  /** A non-empty string of digits. */
  predicate IsDigits(s: string)
  {
    |s| > 0 && forall i :: 0 <= i < |s| ==> '0' <= s[i] <= '9'
  }

  /** A digit string without leading zeros: the form `String(n)` gives a non-negative integer. */
  predicate IsDecimal(s: string)
  {
    IsDigits(s) && (|s| > 1 ==> s[0] != '0')
  }

  /** `String(n)` for a non-negative integer `n`. */
  function Decimal(n: nat): (s: string)
    ensures IsDecimal(s)
    ensures n < 10 <==> |s| == 1
  {
    if n < 10 then [Digit(n)] else Decimal(n / 10) + [Digit(n % 10)]
  }

  /** `Number(s)` for a string of digits. */
  function DecimalValue(s: string): nat
    requires IsDigits(s)
  {
    if |s| == 1 then DigitValue(s[0])
    else
      assert IsDigits(s[..|s| - 1]) by {
        assert forall i :: 0 <= i < |s| - 1 ==> s[..|s| - 1][i] == s[i];
      }
      DecimalValue(s[..|s| - 1]) * 10 + DigitValue(s[|s| - 1])
  }

  /** Reading back a written number gives the number: `Number(String(n)) == n`. */
  lemma {:induction false} DecimalRoundTrip(n: nat)
    ensures DecimalValue(Decimal(n)) == n
  {
    if n >= 10 {
      DecimalRoundTrip(n / 10);
      var s := Decimal(n);
      assert s[..|s| - 1] == Decimal(n / 10);
      assert s[|s| - 1] == Digit(n % 10);
    }
  }

  /** A string with no leading zero of more than one digit reads as at least ten. */
  lemma {:induction false} LongDecimalIsLarge(s: string)
    requires IsDecimal(s) && |s| > 1
    ensures DecimalValue(s) >= 10
  {
    var p := s[..|s| - 1];
    assert IsDecimal(p) by {
      assert forall i :: 0 <= i < |p| ==> p[i] == s[i];
    }
    if |p| > 1 {
      LongDecimalIsLarge(p);
    } else {
      assert p[0] == s[0] != '0';
    }
  }

  /** Writing back a read decimal string gives the string: `String(Number(s)) == s`. */
  lemma {:induction false} DecimalCanonical(s: string)
    requires IsDecimal(s)
    ensures Decimal(DecimalValue(s)) == s
  {
    if |s| > 1 {
      var p := s[..|s| - 1];
      assert IsDecimal(p) by {
        assert forall i :: 0 <= i < |p| ==> p[i] == s[i];
      }
      DecimalCanonical(p);
      LongDecimalIsLarge(s);
      var n := DecimalValue(s);
      assert n / 10 == DecimalValue(p) && n % 10 == DigitValue(s[|s| - 1]);
      assert s == p + [s[|s| - 1]];
    }
  }

  /** Different numbers are written differently. */
  lemma DecimalInjective(m: nat, n: nat)
    requires Decimal(m) == Decimal(n)
    ensures m == n
  {
    DecimalRoundTrip(m);
    DecimalRoundTrip(n);
  }
}
