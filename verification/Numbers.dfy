/** Decimal numbers as strconv.Itoa and %d print them and strconv.ParseInt reads them. */
module Numbers {

  const Digits := "0123456789"

  function Natural(n: nat): string {
    if n < 10 then [Digits[n]] else Natural(n / 10) + [Digits[n % 10]]
  }

  function Decimal(n: int): string {
    if n < 0 then "-" + Natural(-n) else Natural(n)
  }

  function DigitValue(c: char): int {
    c as int - '0' as int
  }

  function ParseNatural(s: string): int {
    if s == "" then 0 else 10 * ParseNatural(s[..|s| - 1]) + DigitValue(s[|s| - 1])
  }

  function ParseDecimal(s: string): int {
    if s != "" && s[0] == '-' then -ParseNatural(s[1..]) else ParseNatural(s)
  }

  predicate DecimalChar(c: char) {
    '0' <= c <= '9' || c == '-'
  }

  lemma {:induction false} NaturalRoundTrip(n: nat)
    ensures Natural(n) != "" && forall i | 0 <= i < |Natural(n)| :: '0' <= Natural(n)[i] <= '9'
    ensures ParseNatural(Natural(n)) == n
  {
    if n >= 10 {
      NaturalRoundTrip(n / 10);
      assert Natural(n)[..|Natural(n)| - 1] == Natural(n / 10);
      DigitsAreDigits(n % 10);
    } else {
      DigitsAreDigits(n);
      assert Natural(n)[..0] == "";
      assert ParseNatural(Natural(n)[..0]) == 0;
    }
  }

  lemma DigitsAreDigits(d: nat)
    requires d < 10
    ensures '0' <= Digits[d] <= '9' && DigitValue(Digits[d]) == d
  {
  }

  /** The digits have their ASCII codes. */
  lemma DigitCodes(d: nat)
    requires d < 10
    ensures Decimal(d) == [(48 + d) as char]
    ensures d > 0 ==> Decimal(-(d as int)) == ['-', (48 + d) as char]
  {
    DigitsAreDigits(d);
    assert Digits[d] as int == 48 + d;
    assert "-" == ['-'];
  }

  /** Decimal notation: the digits of the tens, then the digit of the ones; a minus sign before a negative number. */
  lemma DecimalNotation(n: nat)
    ensures n >= 10 ==> Decimal(n) == Decimal(n / 10) + Decimal(n % 10)
    ensures n > 0 ==> Decimal(-(n as int)) == "-" + Decimal(n)
  {
  }

  /** A printed number is read back, so no two numbers print alike; it is nonempty and has only digits and a sign. */
  lemma DecimalRoundTrip(n: int)
    ensures Decimal(n) != "" && ParseDecimal(Decimal(n)) == n
    ensures forall i | 0 <= i < |Decimal(n)| :: DecimalChar(Decimal(n)[i])
  {
    NaturalRoundTrip(if n < 0 then -n else n);
    if n < 0 {
      assert Decimal(n)[1..] == Natural(-n);
    }
  }
}
