/** Decimal numerals: the text an integer prints as, and what `atoi` reads back. */
module Decimal {

  predicate IsDigit(c: char) {
    '0' <= c <= '9'
  }

  function Digit(d: int): (c: char)
    requires 0 <= d < 10
    ensures IsDigit(c) && c as int - '0' as int == d
  {
    (d + '0' as int) as char
  }

  // The decimal numeral of a natural number, most significant digit first.
  function Numeral(n: nat): string {
    if n < 10 then [Digit(n)] else Numeral(n / 10) + [Digit(n % 10)]
  }

  // What `ostream << int` writes.
  function Print(n: int): string {
    if n < 0 then "-" + Numeral(-n) else Numeral(n)
  }

  // The number a string of digits denotes.
  function Value(s: string): nat
    requires forall c :: c in s ==> IsDigit(c)
  {
    if s == "" then 0 else assert IsDigit(s[|s| - 1]); 10 * Value(s[..|s| - 1]) + (s[|s| - 1] as int - '0' as int)
  }

  // The longest prefix of `s` that consists of digits.
  function DigitPrefix(s: string): (p: string)
    ensures forall c :: c in p ==> IsDigit(c)
  {
    if s == "" || !IsDigit(s[0]) then "" else [s[0]] + DigitPrefix(s[1..])
  }

  predicate IsSpace(c: char) {
    c == ' ' || '\t' <= c <= '\r'
  }

  // C's `atoi`: skip white space, take a sign, read digits, ignore the rest.
  function Atoi(s: string): int {
    if s == "" then 0
    else if IsSpace(s[0]) then Atoi(s[1..])
    else if s[0] == '-' then 0 - Value(DigitPrefix(s[1..]))
    else if s[0] == '+' then Value(DigitPrefix(s[1..]))
    else Value(DigitPrefix(s))
  }

  lemma {:induction false} NumeralIsDigits(n: nat)
    ensures |Numeral(n)| > 0
    ensures forall c :: c in Numeral(n) ==> IsDigit(c)
  {
    if n >= 10 {
      NumeralIsDigits(n / 10);
    }
  }

  lemma {:induction false} NumeralDenotes(n: nat)
    ensures forall c :: c in Numeral(n) ==> IsDigit(c)
    ensures Value(Numeral(n)) == n
  {
    NumeralIsDigits(n);
    if n >= 10 {
      NumeralDenotes(n / 10);
      assert Numeral(n)[..|Numeral(n)| - 1] == Numeral(n / 10);
    } else {
      assert [Digit(n)][..0] == "";
      assert Value([Digit(n)]) == 10 * Value("") + n;
    }
  }

  lemma {:induction false} DigitPrefixOfDigits(s: string)
    requires forall c :: c in s ==> IsDigit(c)
    ensures DigitPrefix(s) == s
  {
    if s != "" {
      DigitPrefixOfDigits(s[1..]);
    }
  }

  /** Reading a printed integer gives it back. */
  lemma AtoiPrint(n: int)
    ensures Atoi(Print(n)) == n
  {
    var m := if n < 0 then -n else n;
    NumeralDenotes(m);
    NumeralIsDigits(m);
    DigitPrefixOfDigits(Numeral(m));
    if n < 0 {
      assert Print(n)[1..] == Numeral(m);
    } else {
      assert IsDigit(Numeral(m)[0]);
    }
  }
}
