/**
  The parts of Go's `strings` and `strconv` packages that the model relies on:
  substring search (used to classify dial errors) and decimal formatting of
  integers (used to turn a port number into the string a port binding holds).
*/
module Text {
  import opened Wrappers

  /** `strings.Contains(s, sub)`: `sub` occurs somewhere inside `s`. */
  predicate Contains(s: string, sub: string)
    decreases |s|
  {
    |sub| <= |s| && (s[..|sub|] == sub || (|s| > 0 && Contains(s[1..], sub)))
  }

  /** Every character of a substring occurs in the string that contains it. */
  lemma {:induction false} ContainsKeepsChars(s: string, sub: string, c: char)
    requires Contains(s, sub) && c in sub
    ensures c in s
    decreases |s|
  {
    if s[..|sub|] == sub {
      assert c in s[..|sub|];
    } else {
      ContainsKeepsChars(s[1..], sub, c);
    }
  }

  /** A string contains each middle part of a concatenation it is made of. */
  lemma {:induction false} ContainsMiddle(a: string, b: string, c: string)
    ensures Contains(a + b + c, b)
    decreases |a|
  {
    var s := a + b + c;
    if a == [] {
      assert s == b + c;
      assert s[..|b|] == b;
    } else {
      assert s[1..] == a[1..] + b + c;
      ContainsMiddle(a[1..], b, c);
    }
  }

  predicate IsDigit(c: char) {
    '0' <= c <= '9'
  }

  predicate AllDigits(s: string) {
    forall i :: 0 <= i < |s| ==> IsDigit(s[i])
  }

  function DigitChar(d: nat): (c: char)
    requires d < 10
    ensures IsDigit(c)
  {
    ('0' as int + d) as char
  }

  function DigitValue(c: char): (d: nat)
    requires IsDigit(c)
    ensures d < 10 && DigitChar(d) == c
  {
    c as int - '0' as int
  }

  /** The decimal digits of `n`, most significant first, with no leading zero. */
  function NatDigits(n: nat): (s: string)
    ensures |s| > 0 && AllDigits(s)
    decreases n
  {
    if n < 10 then [DigitChar(n)] else NatDigits(n / 10) + [DigitChar(n % 10)]
  }

  /** `strconv.Itoa(n)`: a minus sign for negative numbers, then the digits. */
  function Itoa(n: int): (s: string)
    ensures |s| > 0
  {
    if n < 0 then "-" + NatDigits(-n) else NatDigits(n)
  }

  /** The value of a string of decimal digits. */
  function DigitsValue(s: string): nat
    requires AllDigits(s)
  {
    if s == [] then 0 else DigitsValue(s[..|s| - 1]) * 10 + DigitValue(s[|s| - 1])
  }

  /** Reads a decimal integer back, as `strconv.Atoi` does for plain decimal text. */
  function ParseInt(s: string): Option<int> {
    if |s| > 1 && s[0] == '-' && AllDigits(s[1..]) then Some(-(DigitsValue(s[1..]) as int))
    else if |s| > 0 && AllDigits(s) then Some(DigitsValue(s))
    else None
  }

  lemma {:induction false} DigitsRoundTrip(n: nat)
    ensures DigitsValue(NatDigits(n)) == n
    decreases n
  {
    var s := NatDigits(n);
    if n >= 10 {
      DigitsRoundTrip(n / 10);
      assert s[..|s| - 1] == NatDigits(n / 10);
    }
  }

  /** Formatting a port number and reading it back gives the same number. */
  lemma ItoaRoundTrip(n: int)
    ensures ParseInt(Itoa(n)) == Some(n)
  {
    if n < 0 {
      var d := NatDigits(-n);
      assert Itoa(n) == "-" + d && ("-" + d)[1..] == d;
      DigitsRoundTrip(-n);
    } else {
      var d := NatDigits(n);
      assert Itoa(n) == d && IsDigit(d[0]);
      DigitsRoundTrip(n);
    }
  }
}
