/**
 * Base-10 rendering of integers, as `strconv.FormatInt(n, 10)` produces it:
 * an optional '-' followed by the digits of |n| without leading zeros.
 * `ParseDecimal` is a reference inverse used to prove that the rendering is
 * injective, which is what keeps registry identifiers from colliding.
 */
module StrConv {
  import opened Wrappers

  predicate IsDigit(c: char) {
    '0' <= c <= '9'
  }

  predicate IsDigits(s: string) {
    forall i :: 0 <= i < |s| ==> IsDigit(s[i])
  }

  function DigitChar(d: nat): (c: char)
    requires d < 10
    ensures IsDigit(c)
    ensures DigitValue(c) == d
  {
    ('0' as int + d) as char
  }

  function DigitValue(c: char): nat
    requires IsDigit(c)
  {
    c as int - '0' as int
  }

  /** The decimal digits of `n`, most significant first. */
  function FormatUint(n: nat): (s: string)
    ensures s != [] && IsDigits(s)
    ensures s[0] == '0' ==> n == 0 && s == "0"
    decreases n
  {
    if n < 10 then [DigitChar(n)] else FormatUint(n / 10) + [DigitChar(n % 10)]
  }

  /** `strconv.FormatInt(n, 10)`. */
  function FormatInt(n: int): (s: string)
    ensures s != []
    ensures s[0] == '-' <==> n < 0
    ensures n >= 0 ==> IsDigits(s)
    ensures n < 0 ==> IsDigits(s[1..])
  {
    if n < 0 then "-" + FormatUint(-n) else FormatUint(n)
  }

  /** The value of a string of decimal digits (the empty string reads as 0). */
  function ParseUint(s: string): nat
    requires IsDigits(s)
  {
    if s == [] then 0 else ParseUint(s[..|s| - 1]) * 10 + DigitValue(s[|s| - 1])
  }

  /** Reads what `FormatInt` writes: digits, or '-' followed by digits. */
  function ParseDecimal(s: string): Option<int> {
    if s == [] then None
    else if s[0] == '-' then
      if |s| > 1 && IsDigits(s[1..]) then Some(-(ParseUint(s[1..]) as int)) else None
    else if IsDigits(s) then Some(ParseUint(s))
    else None
  }

  lemma {:induction false} FormatUintRoundTrip(n: nat)
    ensures ParseUint(FormatUint(n)) == n
    decreases n
  {
    var s := FormatUint(n);
    if n < 10 {
      assert s[..|s| - 1] == [];
    } else {
      var high := FormatUint(n / 10);
      assert s == high + [DigitChar(n % 10)];
      assert s[..|s| - 1] == high;
      FormatUintRoundTrip(n / 10);
    }
  }

  lemma FormatIntRoundTrip(n: int)
    ensures ParseDecimal(FormatInt(n)) == Some(n)
  {
    if n < 0 {
      var s := FormatInt(n);
      assert s[1..] == FormatUint(-n);
      FormatUintRoundTrip(-n);
    } else {
      FormatUintRoundTrip(n);
    }
  }

  /** Distinct integers have distinct renderings. */
  lemma FormatIntInjective(a: int, b: int)
    ensures FormatInt(a) == FormatInt(b) ==> a == b
  {
    FormatIntRoundTrip(a);
    FormatIntRoundTrip(b);
  }

  lemma FormatIntExamples()
    ensures FormatInt(0) == "0" && FormatInt(1) == "1" && FormatInt(2) == "2"
    ensures FormatInt(10) == "10" && FormatInt(-7) == "-7"
  {
    assert FormatUint(10) == FormatUint(1) + [DigitChar(0)];
  }
}
