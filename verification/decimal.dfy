/** Decimal text for unsigned integers: Rust's `u64::from_str`, which reads
    the proxy speed field, and the shortest decimal form that the URL
    serializer writes for numeric parameters. */
module Decimal {
  import opened Types

  const U64_BOUND: int := 0x1_0000_0000_0000_0000

  predicate IsDigit(c: char) {
    '0' <= c <= '9'
  }

  predicate AllDigits(s: string) {
    forall i :: 0 <= i < |s| ==> IsDigit(s[i])
  }

  function DigitValue(c: char): (d: nat)
    requires IsDigit(c)
    ensures d < 10
  {
    c as int - '0' as int
  }

  function DigitChar(d: nat): (c: char)
    requires d < 10
    ensures IsDigit(c) && DigitValue(c) == d
  {
    (d + '0' as int) as char
  }

  /** The number a string of digits denotes, most significant digit first. */
  function DigitsValue(s: string): nat
    requires AllDigits(s)
  {
    if |s| == 0 then 0 else DigitsValue(s[..|s| - 1]) * 10 + DigitValue(s[|s| - 1])
  }

  /** A numeral with no superfluous leading zero. */
  predicate Canonical(s: string) {
    |s| > 0 && AllDigits(s) && (s[0] == '0' ==> |s| == 1)
  }

  /** The shortest decimal numeral of `n`, as integers are written into a
      query string. */
  function ToDecimal(n: nat): (s: string)
    ensures Canonical(s)
    ensures DigitsValue(s) == n
  {
    if n < 10 then [DigitChar(n)]
    else
      var p := ToDecimal(n / 10);
      var s := p + [DigitChar(n % 10)];
      assert s[..|s| - 1] == p;
      s
  }

  /** Rust's `u64::from_str`: an optional leading `+`, then one or more ASCII
      digits whose value fits in 64 bits; anything else is an error. Leading
      zeros are allowed. */
  function ParseU64(s: string): (r: Option<u64>)
    ensures r.Some? ==> |s| > 0
    ensures var d := if |s| > 0 && s[0] == '+' then s[1..] else s;
      (r.Some? <==> |d| > 0 && AllDigits(d) && DigitsValue(d) < U64_BOUND) &&
      (r.Some? ==> r.value as int == DigitsValue(d))
  {
    var digits := if |s| > 0 && s[0] == '+' then s[1..] else s;
    if |digits| > 0 && AllDigits(digits) && DigitsValue(digits) < U64_BOUND then
      Some(DigitsValue(digits) as u64)
    else
      None
  }

  /** A numeral whose first digit is not zero denotes at least that digit. */
  lemma {:induction false} LeadingDigitBound(s: string)
    requires |s| > 0 && AllDigits(s)
    ensures DigitsValue(s) >= DigitValue(s[0])
  {
    if |s| > 1 {
      var p := s[..|s| - 1];
      assert p[0] == s[0];
      LeadingDigitBound(p);
    }
  }

  /** Canonical numerals and naturals are in one-to-one correspondence:
      printing the value of a canonical numeral gives the numeral back. */
  lemma {:induction false} CanonicalRoundTrip(s: string)
    requires Canonical(s)
    ensures ToDecimal(DigitsValue(s)) == s
  {
    if |s| > 1 {
      var p := s[..|s| - 1];
      var d := DigitValue(s[|s| - 1]);
      assert p[0] == s[0];
      assert Canonical(p);
      LeadingDigitBound(p);
      var v := DigitsValue(p);
      assert v >= 1;
      assert DigitsValue(s) == v * 10 + d;
      assert (v * 10 + d) / 10 == v && (v * 10 + d) % 10 == d;
      CanonicalRoundTrip(p);
      assert DigitChar(d) == s[|s| - 1];
      assert s == p + [s[|s| - 1]];
    }
  }

  /** Parsing what the serializer prints recovers the number. */
  lemma PrintParseRoundTrip(n: u64)
    ensures ParseU64(ToDecimal(n as nat)) == Some(n)
  {
    var s := ToDecimal(n as nat);
    assert IsDigit(s[0]);
  }

  /** The explicit `+` sign is accepted and changes nothing, in front of any
      text that does not itself start with a sign. */
  lemma PlusSignAccepted(s: string)
    requires |s| > 0 && s[0] != '+'
    ensures ParseU64(['+'] + s) == ParseU64(s)
  {
    assert (['+'] + s)[1..] == s;
  }

  /** A leading zero does not change the value of a digit string. */
  lemma {:induction false} LeadingZeroValue(s: string)
    requires AllDigits(s)
    ensures AllDigits(['0'] + s) && DigitsValue(['0'] + s) == DigitsValue(s)
  {
    var z := ['0'] + s;
    assert AllDigits(z) by {
      forall i | 0 <= i < |z| ensures IsDigit(z[i]) {
        if i > 0 { assert z[i] == s[i - 1]; }
      }
    }
    if |s| > 0 {
      var p := s[..|s| - 1];
      assert z[..|z| - 1] == ['0'] + p;
      LeadingZeroValue(p);
    }
  }

  /** Leading zeros are accepted: `007` reads as 7. */
  lemma LeadingZeroAccepted(s: string)
    requires |s| > 0 && AllDigits(s)
    ensures ParseU64(['0'] + s) == ParseU64(s)
  {
    LeadingZeroValue(s);
    assert (['0'] + s)[0] == '0';
  }

  /** Concrete readings of the speed field: padded and signed numerals parse,
      a bare sign and the empty text do not. */
  lemma ParseExamples()
    ensures ParseU64("007") == Some(7) && ParseU64("+07") == Some(7)
    ensures ParseU64("+") == None && ParseU64("") == None
  {
    assert DigitsValue("0") == 0;
    assert "07"[..1] == "0";
    assert DigitsValue("07") == 7;
    assert "007"[..2] == "00" && "00"[..1] == "0";
    assert DigitsValue("007") == 7;
    assert "+07"[1..] == "07";
  }

  /** A canonical numeral that parses is exactly the printed form of its
      value, so parse and print are mutually inverse on canonical text. */
  lemma ParsePrintRoundTrip(s: string, n: u64)
    requires Canonical(s)
    requires ParseU64(s) == Some(n)
    ensures ToDecimal(n as nat) == s
  {
    CanonicalRoundTrip(s);
  }

  /** Values that do not fit in 64 bits are rejected rather than wrapped. */
  lemma OverflowRejected(s: string)
    requires AllDigits(s) && DigitsValue(s) >= U64_BOUND
    ensures ParseU64(s) == None
  {
  }

  /** A minus sign is never accepted: the target type is unsigned. */
  lemma MinusRejected(s: string)
    requires |s| > 0 && s[0] == '-'
    ensures ParseU64(s) == None
  {
    assert !IsDigit(s[0]);
  }
}
