/** Decimal rendering of integers, as Python's `str(int)` does inside an f-string. */
module Decimal {

  import opened Wrappers

  predicate IsDigit(c: char) { '0' <= c <= '9' }

  predicate AllDigits(s: string) { forall i :: 0 <= i < |s| ==> IsDigit(s[i]) }

  function DigitChar(d: nat): (c: char)
    requires d < 10
    ensures IsDigit(c) && DigitValue(c) == d
  {
    ('0' as int + d) as char
  }

  function DigitValue(c: char): nat
    requires IsDigit(c)
  {
    c as int - '0' as int
  }

  /** The digits of `n`, most significant first, without leading zeros. */
  function NatToString(n: nat): (s: string)
    ensures s != [] && AllDigits(s)
    ensures s[0] == '0' <==> n == 0
    decreases n
  {
    if n < 10 then [DigitChar(n)] else NatToString(n / 10) + [DigitChar(n % 10)]
  }

  /** `str(i)`: a minus sign for negative numbers, then the digits of the magnitude. */
  function IntToString(i: int): (s: string)
    ensures s != []
    ensures s[0] == '-' <==> i < 0
    ensures i >= 0 ==> Canonical(s)
    ensures i < 0 ==> Canonical(s[1..]) && s[1..] != "0"
  {
    if i < 0 then "-" + NatToString(-i) else NatToString(i)
  }

  /** Reads a non-empty string of decimal digits. */
  function ParseNat(s: string): nat
    requires s != [] && AllDigits(s)
    decreases |s|
  {
    if |s| == 1 then DigitValue(s[0])
    else ParseNat(s[..|s| - 1]) * 10 + DigitValue(s[|s| - 1])
  }

  /** Digits as `str(n)` writes them: at least one, and no leading zero unless the number is 0. */
  predicate Canonical(s: string)
  {
    s != [] && AllDigits(s) && (|s| == 1 || s[0] != '0')
  }

  /** Reads what `IntToString` writes, and nothing else: no leading zeros, no `-0`. */
  function ParseInt(s: string): (r: Option<int>)
    ensures r.Some? ==> s != [] && (s[0] == '-' <==> r.value < 0)
  {
    if s != [] && s[0] == '-' && Canonical(s[1..]) && s[1..] != "0" then
      NonZeroParses(s[1..]);
      Some(-(ParseNat(s[1..]) as int))
    else if Canonical(s) then Some(ParseNat(s))
    else None
  }

  /** Canonical digits other than `0` read as a positive number. */
  lemma {:induction false} NonZeroParses(s: string)
    requires Canonical(s) && s != "0"
    ensures ParseNat(s) > 0
    decreases |s|
  {
    if |s| > 1 {
      var p := s[..|s| - 1];
      assert p[0] == s[0];
      if |p| > 1 {
        NonZeroParses(p);
      } else {
        assert p == [s[0]];
      }
    } else {
      assert s == [s[0]];
    }
  }

  lemma {:induction false} NatRoundTrip(n: nat)
    ensures ParseNat(NatToString(n)) == n
    decreases n
  {
    if n >= 10 {
      NatRoundTrip(n / 10);
      var s := NatToString(n);
      assert s[..|s| - 1] == NatToString(n / 10);
    }
  }

  /** Canonical digits are what `NatToString` writes for the number they read as. */
  lemma {:induction false} CanonicalRoundTrip(s: string)
    requires Canonical(s)
    ensures NatToString(ParseNat(s)) == s
    decreases |s|
  {
    if |s| > 1 {
      var p := s[..|s| - 1];
      assert p[0] == s[0];
      NonZeroParses(p);
      CanonicalRoundTrip(p);
      var n := ParseNat(s);
      assert n / 10 == ParseNat(p) && n % 10 == DigitValue(s[|s| - 1]);
      assert s == p + [s[|s| - 1]];
    } else {
      assert s == [s[0]];
    }
  }

  /** Every text `ParseInt` accepts is the one `IntToString` writes for its number, so the
      rendering of an integer is the only text that reads as it. */
  lemma ParsedIsWritten(s: string)
    ensures ParseInt(s).Some? ==> IntToString(ParseInt(s).value) == s
  {
    if s != [] && s[0] == '-' && Canonical(s[1..]) && s[1..] != "0" {
      NonZeroParses(s[1..]);
      CanonicalRoundTrip(s[1..]);
      assert s == "-" + s[1..];
    } else if Canonical(s) {
      CanonicalRoundTrip(s);
    }
  }

  /** The rendered exit code can be read back exactly: distinct codes render differently. */
  lemma IntRoundTrip(i: int)
    ensures ParseInt(IntToString(i)) == Some(i)
  {
    if i < 0 {
      var s := IntToString(i);
      assert s[1..] == NatToString(-i);
      NatRoundTrip(-i);
    } else {
      NatRoundTrip(i);
    }
  }
}
