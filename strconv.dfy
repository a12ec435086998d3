/**
 * The parts of Go's `strconv` and `fmt` the scanner relies on: Atoi, which
 * parses a port number, and the decimal rendering of `%d`, which prints one.
 * Integers are unbounded; see README for what that leaves out of Atoi.
 */
module Strconv {
  import opened Wrappers

  predicate IsDigit(c: char)
  {
    '0' <= c <= '9'
  }

  predicate AllDigits(s: string)
  {
    forall i :: 0 <= i < |s| ==> IsDigit(s[i])
  }

  function DigitValue(c: char): (d: nat)
    requires IsDigit(c)
    ensures d < 10
  {
    c as int - '0' as int
  }

  function DigitChar(d: nat): (c: char)
    requires d < 10
    ensures IsDigit(c) && DigitValue(c) == d
  {
    ('0' as int + d) as char
  }

  /** The number a string of decimal digits denotes, most significant digit first. */
  function DecimalValue(s: string): nat
    requires AllDigits(s)
  {
    if |s| == 0 then 0 else DecimalValue(s[..|s| - 1]) * 10 + DigitValue(s[|s| - 1])
  }

  /**
   * Go's strconv.Atoi: an optional '+' or '-' followed by one or more decimal
   * digits; anything else (an empty string, a space, a second sign) is an error.
   */
  function Atoi(s: string): Option<int>
  {
    if |s| > 0 && (s[0] == '+' || s[0] == '-') then
      var digits := s[1..];
      if |digits| > 0 && AllDigits(digits) then
        var magnitude: int := DecimalValue(digits);
        Some(if s[0] == '-' then -magnitude else magnitude)
      else None
    else if |s| > 0 && AllDigits(s) then Some(DecimalValue(s))
    else None
  }

  /** The shortest decimal digits of n. */
  function NatDigits(n: nat): (s: string)
    ensures |s| > 0 && AllDigits(s)
  {
    if n < 10 then [DigitChar(n)] else NatDigits(n / 10) + [DigitChar(n % 10)]
  }

  /** The digits NatDigits prints denote n, and only 0 is printed with a leading zero. */
  lemma {:induction false} NatDigitsValue(n: nat)
    ensures DecimalValue(NatDigits(n)) == n
    ensures NatDigits(n)[0] == '0' ==> n == 0
  {
    if n >= 10 {
      NatDigitsValue(n / 10);
      var s := NatDigits(n);
      assert s[..|s| - 1] == NatDigits(n / 10);
    }
  }

  /** `fmt.Sprintf("%d", n)` (and strconv.Itoa): a '-' for a negative n, then the digits of |n|. */
  function Itoa(n: int): (s: string)
    ensures |s| > 0
    ensures forall i :: 0 <= i < |s| ==> IsDigit(s[i]) || (i == 0 && s[i] == '-')
    ensures (s[0] == '-') <==> n < 0
  {
    if n < 0 then "-" + NatDigits(-n) else NatDigits(n)
  }

  /** Atoi reads back what Itoa prints. */
  lemma AtoiItoa(n: int)
    ensures Atoi(Itoa(n)) == Some(n)
  {
    if n < 0 {
      NatDigitsValue(-n);
      assert Itoa(n)[1..] == NatDigits(-n);
    } else {
      NatDigitsValue(n);
    }
  }

  /** `%d` of a few numbers, worked out. */
  lemma ItoaExamples()
    ensures Itoa(22) == "22" && Itoa(80) == "80" && Itoa(443) == "443"
    ensures Itoa(65536) == "65536" && Itoa(99999) == "99999" && Itoa(-1) == "-1"
  {
  }

  /**
   * Atoi rejects a string with a character that is not a digit, unless that
   * character is a sign at the front followed by at least one more character.
   * This covers "abc", "8 0", "+-1", "+" and "-".
   */
  lemma AtoiRejectsNonDigit(s: string, i: nat)
    requires i < |s| && !IsDigit(s[i])
    requires !(i == 0 && |s| > 1 && (s[0] == '+' || s[0] == '-'))
    ensures Atoi(s) == None
  {
    if i > 0 && (s[0] == '+' || s[0] == '-') {
      assert s[1..][i - 1] == s[i];
    }
  }

  /** Atoi accepts a sign in front of the digits: "+80" is 80 and "-80" is -80. */
  lemma AtoiSigned(n: nat)
    ensures Atoi("+" + Itoa(n)) == Some(n)
    ensures Atoi("-" + Itoa(n)) == Some(-(n as int))
  {
    NatDigitsValue(n);
    assert ("+" + Itoa(n))[1..] == Itoa(n);
    assert ("-" + Itoa(n))[1..] == Itoa(n);
  }

  /** One leading '0' does not change the value of a digit string. */
  lemma {:induction false} DecimalValueLeadingZero(s: string)
    requires AllDigits(s)
    ensures AllDigits("0" + s) && DecimalValue("0" + s) == DecimalValue(s)
    decreases |s|
  {
    var z := "0" + s;
    if |s| > 0 {
      var init := s[..|s| - 1];
      DecimalValueLeadingZero(init);
      assert z[..|z| - 1] == "0" + init;
    }
  }

  /** Leading zeros do not change the value of a digit string. */
  lemma {:induction false} DecimalValueLeadingZeros(zeros: string, s: string)
    requires forall i :: 0 <= i < |zeros| ==> zeros[i] == '0'
    requires AllDigits(s)
    ensures AllDigits(zeros + s) && DecimalValue(zeros + s) == DecimalValue(s)
    decreases |zeros|
  {
    if |zeros| == 0 {
      assert zeros + s == s;
    } else {
      var tail := zeros[1..] + s;
      DecimalValueLeadingZeros(zeros[1..], s);
      DecimalValueLeadingZero(tail);
      assert zeros + s == "0" + tail;
    }
  }

  /** Atoi accepts leading zeros: "0080" is 80. */
  lemma AtoiLeadingZeros(zeros: string, n: nat)
    requires forall i :: 0 <= i < |zeros| ==> zeros[i] == '0'
    ensures Atoi(zeros + Itoa(n)) == Some(n)
  {
    NatDigitsValue(n);
    DecimalValueLeadingZeros(zeros, Itoa(n));
    var s := zeros + Itoa(n);
    assert IsDigit(s[0]);
  }
}
