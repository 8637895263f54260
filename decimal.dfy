/** Decimal numerals of natural numbers, as Python's `str(n)` writes them.
    Space ids in the document are such numerals (`str(len(...) + 1)`). */
module Decimal {

  /** The ASCII digit character for a value below ten. */
  function DigitChar(d: nat): (c: char)
    requires d < 10
    ensures '0' <= c <= '9'
  {
    (('0' as int) + d) as char
  }

  /** The value of an ASCII digit character; the inverse of DigitChar. */
  function DigitValue(c: char): (d: nat)
    requires '0' <= c <= '9'
    ensures d < 10 && DigitChar(d) == c
  {
    (c as int) - ('0' as int)
  }

  predicate IsDigits(s: string) {
    forall i :: 0 <= i < |s| ==> '0' <= s[i] <= '9'
  }

  /** `str(n)`: the shortest decimal numeral of n, most significant digit first. */
  function NatToString(n: nat): (s: string)
    ensures |s| >= 1 && IsDigits(s)
    ensures n > 0 ==> s[0] != '0'
    decreases n
  {
    if n < 10 then [DigitChar(n)] else NatToString(n / 10) + [DigitChar(n % 10)]
  }

  /** The value of a string of digits (leading zeros allowed, the empty string is 0). */
  function ParseNat(s: string): (n: nat)
    requires IsDigits(s)
    decreases |s|
  {
    if s == [] then 0 else ParseNat(s[..|s| - 1]) * 10 + DigitValue(s[|s| - 1])
  }

  /** Reading back a numeral gives the number it was written from. */
  lemma {:induction false} ParseNatToString(n: nat)
    ensures ParseNat(NatToString(n)) == n
    decreases n
  {
    var s := NatToString(n);
    if n < 10 {
      assert s[..|s| - 1] == [];
    } else {
      var p := NatToString(n / 10);
      assert s == p + [DigitChar(n % 10)];
      assert s[..|s| - 1] == p;
      ParseNatToString(n / 10);
    }
  }

  /** Two numbers have the same numeral exactly when they are equal. */
  lemma NatToStringInjective(a: nat, b: nat)
    ensures NatToString(a) == NatToString(b) <==> a == b
  {
    ParseNatToString(a);
    ParseNatToString(b);
  }

  /** The numerals of 1 .. n, the ids a document gets from n additions and no deletion. */
  function NumeralsUpTo(n: nat): set<string>
    decreases n
  {
    if n == 0 then {} else NumeralsUpTo(n - 1) + {NatToString(n)}
  }

  /** Every numeral of NumeralsUpTo(n) reads back as a number in 1 .. n. */
  lemma {:induction false} NumeralsUpToBounds(n: nat)
    ensures forall s :: s in NumeralsUpTo(n) ==> IsDigits(s) && 1 <= ParseNat(s) <= n
    decreases n
  {
    if n > 0 {
      NumeralsUpToBounds(n - 1);
      ParseNatToString(n);
    }
  }

  /** The next numeral is not yet among NumeralsUpTo(n), which has n members. */
  lemma {:induction false} NumeralsUpToNext(n: nat)
    ensures NatToString(n + 1) !in NumeralsUpTo(n)
    ensures |NumeralsUpTo(n)| == n
    decreases n
  {
    NumeralsUpToBounds(n);
    ParseNatToString(n + 1);
    if n > 0 {
      NumeralsUpToNext(n - 1);
    }
  }
}
