/**
  Decimal text of integers, as `strconv.Itoa` writes it (an optional minus
  sign, then the digits without leading zeros), and the matching reader.
 */
module Decimal {
  import opened Wrappers

  function DigitChar(d: nat): char
    requires d < 10
  {
    ('0' as int + d) as char
  }

  function CharDigit(c: char): Option<nat> {
    if '0' <= c <= '9' then Some(c as int - '0' as int) else None
  }

  predicate IsDigit(c: char) {
    '0' <= c <= '9'
  }

  /** The digits of `n`, most significant first. */
  function NatDigits(n: nat): (s: string)
    ensures |s| > 0
    ensures forall i :: 0 <= i < |s| ==> IsDigit(s[i])
    ensures n > 0 ==> s[0] != '0'
    decreases n
  {
    if n < 10 then [DigitChar(n)] else NatDigits(n / 10) + [DigitChar(n % 10)]
  }

  /** `strconv.Itoa(n)`: a minus sign for negatives, then the digits of the magnitude. */
  function Itoa(n: int): (s: string)
    ensures |s| > 0
    ensures n < 0 <==> s[0] == '-'
    ensures n < 0 ==> |s| > 1 && s[1] != '0'
    ensures n < 0 ==> forall i :: 1 <= i < |s| ==> IsDigit(s[i])
    ensures n >= 0 ==> forall i :: 0 <= i < |s| ==> IsDigit(s[i])
    ensures n > 0 ==> s[0] != '0'
  {
    if n < 0 then "-" + NatDigits(-n) else NatDigits(n)
  }

  /** The value of a non-empty all-digit string. */
  function DigitsValue(s: string): Option<nat>
    decreases |s|
  {
    if |s| == 0 then None
    else
      match CharDigit(s[|s| - 1])
      case None => None
      case Some(d) =>
        if |s| == 1 then Some(d)
        else
          match DigitsValue(s[..|s| - 1])
          case None => None
          case Some(v) => Some(v * 10 + d)
  }

  /** Reads an optionally signed decimal integer. */
  function Atoi(s: string): Option<int> {
    if |s| > 0 && s[0] == '-' then
      match DigitsValue(s[1..])
      case None => None
      case Some(v) => Some(0 - v as int)
    else DigitsValue(s)
  }

  lemma {:induction false} DigitsRoundTrip(n: nat)
    ensures DigitsValue(NatDigits(n)) == Some(n)
    decreases n
  {
    if n >= 10 {
      var s := NatDigits(n);
      assert s[..|s| - 1] == NatDigits(n / 10);
      DigitsRoundTrip(n / 10);
    }
  }

  /** Reading back what `Itoa` wrote gives the integer it was given. */
  lemma ItoaRoundTrip(n: int)
    ensures Atoi(Itoa(n)) == Some(n)
  {
    if n < 0 {
      assert Itoa(n)[1..] == NatDigits(-n);
      DigitsRoundTrip(-n);
    } else {
      DigitsRoundTrip(n);
    }
  }
}
