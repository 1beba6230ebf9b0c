/**
 * Decimal digit strings: the value of the amount typed on the keypad (what parseFloat reads)
 * and the decimal text of Date.now() used as a transaction id (Number.prototype.toString).
 */
module Numbers {

  predicate IsDigit(c: char) { '0' <= c <= '9' }

  ghost predicate AllDigits(s: string) { forall i :: 0 <= i < |s| ==> IsDigit(s[i]) }

  ghost predicate HasNonzeroDigit(s: string) { exists i :: 0 <= i < |s| && '1' <= s[i] <= '9' }

  function DigitValue(c: char): nat { if IsDigit(c) then (c as int - '0' as int) else 0 }

  function DigitChar(d: nat): (c: char)
    requires d < 10
    ensures IsDigit(c) && DigitValue(c) == d
  {
    ('0' as int + d) as char
  }

  /** The integer a digit string denotes, read left to right. */
  function DigitsValue(s: string): nat
  {
    if s == [] then 0 else DigitsValue(s[..|s| - 1]) * 10 + DigitValue(s[|s| - 1])
  }

  /** The value of the digits after a decimal point: 0.d1 d2 d3 ... */
  function FractionValue(s: string): real
  {
    if s == [] then 0.0 else (DigitValue(s[0]) as real + FractionValue(s[1..])) / 10.0
  }

  /** Number.prototype.toString of a non-negative integer: its decimal digits, no leading zero. */
  function NatToString(n: nat): (s: string)
    ensures |s| > 0 && AllDigits(s)
    ensures s[0] == '0' ==> n == 0
  {
    if n < 10 then [DigitChar(n)] else NatToString(n / 10) + [DigitChar(n % 10)]
  }

  /** Reading back the decimal text of `n` gives `n`. */
  lemma {:induction false} NatToStringRoundTrip(n: nat)
    ensures DigitsValue(NatToString(n)) == n
  {
    if n >= 10 {
      var s := NatToString(n);
      assert s[..|s| - 1] == NatToString(n / 10);
      NatToStringRoundTrip(n / 10);
    }
  }

  /** Different clock readings give different ids. */
  lemma NatToStringInjective(a: nat, b: nat)
    requires NatToString(a) == NatToString(b)
    ensures a == b
  {
    NatToStringRoundTrip(a);
    NatToStringRoundTrip(b);
  }

  /** A digit string denotes a positive integer exactly when one of its digits is not 0. */
  lemma {:induction false} DigitsValuePositive(s: string)
    requires AllDigits(s)
    ensures DigitsValue(s) > 0 <==> HasNonzeroDigit(s)
  {
    if s != [] {
      var p := s[..|s| - 1];
      assert AllDigits(p) by {
        forall i | 0 <= i < |p| ensures IsDigit(p[i]) { assert p[i] == s[i]; }
      }
      DigitsValuePositive(p);
      if HasNonzeroDigit(p) {
        var i :| 0 <= i < |p| && '1' <= p[i] <= '9';
        assert s[i] == p[i];
      }
    }
  }

  /** The digits after the point add a value in [0, 1) that is positive exactly when one of them is not 0. */
  lemma {:induction false} FractionValueBounds(s: string)
    requires AllDigits(s)
    ensures 0.0 <= FractionValue(s) < 1.0
    ensures FractionValue(s) > 0.0 <==> HasNonzeroDigit(s)
  {
    if s != [] {
      var rest := s[1..];
      assert AllDigits(rest) by {
        forall i | 0 <= i < |rest| ensures IsDigit(rest[i]) { assert rest[i] == s[i + 1]; }
      }
      FractionValueBounds(rest);
      if HasNonzeroDigit(rest) {
        var i :| 0 <= i < |rest| && '1' <= rest[i] <= '9';
        assert s[i + 1] == rest[i];
      }
      if HasNonzeroDigit(s) && !HasNonzeroDigit(rest) {
        var i :| 0 <= i < |s| && '1' <= s[i] <= '9';
        if i > 0 { assert rest[i - 1] == s[i]; }
      }
    }
  }
}
