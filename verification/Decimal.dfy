/** Decimal text of integers: what `(string)$k`, `strconv.FormatInt` and `strconv.ParseInt` exchange. */
module Decimal {
  import opened Bytes

  const MINUS: Byte := 45
  const PLUS: Byte := 43
  const ZERO: Byte := 48

  predicate IsDigit(c: Byte) { ZERO <= c <= ZERO + 9 }

  predicate AllDigits(s: Bytes) { forall i :: 0 <= i < |s| ==> IsDigit(s[i]) }

  /** Digits of a natural number, no leading zero except for zero itself. */
  function Digits(n: nat): (s: Bytes)
    ensures |s| > 0 && AllDigits(s)
    ensures s[0] == ZERO <==> n == 0
    ensures n == 0 ==> |s| == 1
  {
    if n < 10 then [ZERO + n] else Digits(n / 10) + [ZERO + n % 10]
  }

  function Text(n: int): (s: Bytes)
    ensures |s| > 0
  {
    if n < 0 then [MINUS] + Digits(-n) else Digits(n)
  }

  /** The decimal digits in ASCII, most significant first, behind a minus sign for a negative number. */
  lemma DecimalText(n: nat, d: nat)
    requires d < 10
    ensures Text(d) == [48 + d] && (n > 0 ==> Text(10 * n + d) == Text(n) + [48 + d])
    ensures n > 0 ==> Text(0 - n) == [45] + Text(n)
  {
    assert (10 * n + d) / 10 == n && (10 * n + d) % 10 == d;
  }

  /** Value of a string of digits (leading zeros allowed). */
  function DigitsValue(s: Bytes): nat
    requires AllDigits(s)
  {
    if s == [] then 0 else DigitsValue(s[..|s| - 1]) * 10 + (s[|s| - 1] - ZERO)
  }

  lemma {:induction false} DigitsReadBack(n: nat)
    ensures DigitsValue(Digits(n)) == n
  {
    if n < 10 {
      assert Digits(n) == [ZERO + n];
      assert DigitsValue([]) == 0;
    } else {
      DigitsReadBack(n / 10);
      assert Digits(n)[..|Digits(n)| - 1] == Digits(n / 10);
    }
  }

  lemma {:induction false} DigitsWriteBack(s: Bytes)
    requires AllDigits(s) && |s| > 0
    requires s[0] == ZERO ==> |s| == 1
    ensures Digits(DigitsValue(s)) == s
    ensures s[0] != ZERO ==> DigitsValue(s) > 0
  {
    if |s| == 1 {
      assert s[..0] == [];
    } else {
      var t := s[..|s| - 1];
      DigitsWriteBack(t);
      assert DigitsValue(s) / 10 == DigitsValue(t);
      assert s == t + [s[|s| - 1]];
    }
  }

  /** Decimal text in the one form `Text` produces. */
  predicate Canonical(s: Bytes)
  {
    if |s| > 0 && s[0] == MINUS
    then |s| > 1 && AllDigits(s[1..]) && s[1] != ZERO
    else |s| > 0 && AllDigits(s) && (s[0] == ZERO ==> |s| == 1)
  }

  function CanonicalValue(s: Bytes): int
    requires Canonical(s)
  {
    if s[0] == MINUS then 0 - DigitsValue(s[1..]) else DigitsValue(s)
  }

  lemma TextIsCanonical(n: int)
    ensures Canonical(Text(n)) && CanonicalValue(Text(n)) == n
  {
    if n < 0 {
      DigitsReadBack(-n);
      assert Text(n)[1..] == Digits(-n);
    } else {
      DigitsReadBack(n);
    }
  }

  lemma CanonicalIsText(s: Bytes)
    requires Canonical(s)
    ensures Text(CanonicalValue(s)) == s
  {
    if s[0] == MINUS { DigitsWriteBack(s[1..]); } else { DigitsWriteBack(s); }
  }
}
