/** Go's int64: wrap-around arithmetic, truncating division, and the decimal text of `strconv`. */
module Int64 {
  import opened Bytes
  import opened Decimal

  predicate InRange(x: int) { -TWO63 <= x < TWO63 }

  type int64 = x: int | InRange(x) witness 0

  function Wrap(x: int): (r: int64)
    ensures InRange(x) ==> r == x
  {
    (x + TWO63) % TWO64 - TWO63
  }

  lemma WrapMod(x: int)
    ensures exists k :: Wrap(x) == x + k * TWO64
  {
    var q := (x + TWO63) / TWO64;
    assert Wrap(x) == x + (-q) * TWO64;
  }

  lemma ModShift(x: int, k: int)
    ensures (x + k * TWO64) % TWO64 == x % TWO64
    decreases if k < 0 then -k else k
  {
    if k > 0 { ModShift(x, k - 1); } else if k < 0 { ModShift(x, k + 1); }
  }

  /** Values that differ by a multiple of 2^64 wrap to the same value. */
  lemma WrapShift(x: int, k: int)
    ensures Wrap(x + k * TWO64) == Wrap(x)
  {
    ModShift(x + TWO63, k);
  }

  lemma WrapAdd(a: int, b: int)
    ensures Wrap(Wrap(a) + b) == Wrap(a + b)
  {
    WrapMod(a);
    var k :| Wrap(a) == a + k * TWO64;
    WrapShift(a + b, k);
  }

  lemma WrapMul(a: int, b: int)
    ensures Wrap(Wrap(a) * b) == Wrap(a * b)
  {
    WrapMod(a);
    var k :| Wrap(a) == a + k * TWO64;
    assert (a + k * TWO64) * b == a * b + (k * b) * TWO64;
    WrapShift(a * b, k * b);
  }

  /** Division that truncates toward zero. */
  function TruncDiv(a: int, b: int): int
    requires b != 0
  {
    if a >= 0 then a / b else -((-a) / b)
  }

  /** What Go's division promises: the remainder is smaller than the divisor and has the sign of the dividend. */
  lemma TruncDivMeans(a: int, b: int)
    requires b != 0
    ensures var rem := a - TruncDiv(a, b) * b;
            -Abs(b) < rem < Abs(b) && (a >= 0 ==> rem >= 0) && (a <= 0 ==> rem <= 0)
  {
    if a < 0 {
      var q := (-a) / b;
      assert -a == q * b + (-a) % b;
      assert (-q) * b == -(q * b);
    }
  }

  function Abs(x: int): int { if x < 0 then -x else x }

  lemma TruncDivExact(q: int, b: int)
    requires b > 0
    ensures TruncDiv(q * b, b) == q
  {
    if q >= 0 {
      assert q * b >= 0;
      MulDiv(q, b);
    } else {
      assert q * b < 0;
      assert -(q * b) == (-q) * b;
      MulDiv(-q, b);
    }
  }

  lemma MulDiv(q: nat, b: int)
    requires b > 0
    ensures q * b / b == q
  {
    var d := q - q * b / b;
    assert d * b == (q * b) % b by {
      assert d * b == q * b - (q * b / b) * b;
    }
  }

  // ---------------------------------------------------------------- text

  /** Length of the longest prefix of digits. */
  function DigitRun(s: Bytes): (n: nat)
    ensures n <= |s| && AllDigits(s[..n]) && (n < |s| ==> !IsDigit(s[n]))
  {
    if s == [] || !IsDigit(s[0]) then 0 else 1 + DigitRun(s[1..])
  }

  function Clamp(x: int): (r: int64) { if x < -TWO63 then -TWO63 else if x >= TWO63 then TWO63 - 1 else x }

  /**
   The value `strconv.ParseInt(s, 10, 64)` returns: zero on a syntax error, the nearest int64 on a range error.
   The scan stops with a range error as soon as the digits read exceed 64 bits, even when a bad character follows.
   */
  function ParseInt(s: Bytes): (r: int64)
  {
    var neg := s != [] && s[0] == MINUS;
    var u := if s != [] && (s[0] == MINUS || s[0] == PLUS) then s[1..] else s;
    var n := DigitRun(u);
    var v := DigitsValue(u[..n]);
    if n > 0 && (v >= TWO64 || n == |u|) then Clamp(if neg then 0 - v else v) else 0
  }

  lemma {:induction false} WholeRun(d: Bytes)
    requires AllDigits(d)
    ensures DigitRun(d) == |d|
  {
    if d != [] {
      assert forall i :: 0 <= i < |d[1..]| ==> d[1..][i] == d[i + 1];
      WholeRun(d[1..]);
    }
  }

  lemma DigitsRun(m: nat)
    ensures var d := Digits(m); d != [] && IsDigit(d[0]) && DigitRun(d) == |d| && DigitsValue(d) == m
  {
    DigitsReadBack(m);
    hide Digits, DigitsValue;
    WholeRun(Digits(m));
  }

  lemma ClampIn(n: int64)
    ensures Clamp(n) == n
  {
    assert InRange(n);
  }

  /** `ParseInt` reads back what `FormatInt` writes. */
  lemma ParseText(n: int64)
    ensures ParseInt(Text(n)) == n
  {
    hide ParseInt, Text;
    ParseClamps(n);
    ClampIn(n);
  }

  /**
   No number: nothing behind the sign, or something that is not a digit, with digits in front of it that do not
   exceed 64 bits.
   */
  predicate NoNumber(s: Bytes)
  {
    var u := if s != [] && (s[0] == MINUS || s[0] == PLUS) then s[1..] else s;
    (u == [] || !AllDigits(u)) && DigitsValue(u[..DigitRun(u)]) < TWO64
  }

  lemma ParseNoNumber(s: Bytes)
    requires NoNumber(s)
    ensures ParseInt(s) == 0
  {
    var u := if s != [] && (s[0] == MINUS || s[0] == PLUS) then s[1..] else s;
    hide DigitsValue, DigitRun;
    assert u[..|u|] == u;
  }

  /** A number past the largest int64 reads as the largest, one past the smallest as the smallest. */
  lemma ParseOutOfRange(n: int)
    ensures n >= TWO63 ==> ParseInt(Text(n)) == TWO63 - 1
    ensures n < -TWO63 ==> ParseInt(Text(n)) == -TWO63
  {
    ParseClamps(n);
    hide ParseInt, Text;
  }

  lemma ParseClamps(n: int)
    ensures ParseInt(Text(n)) == Clamp(n)
  {
    var m: nat := if n < 0 then 0 - n else n;
    DigitsRun(m);
    hide Digits, DigitsValue, DigitRun, Clamp, AllDigits;
    var d := Digits(m);
    assert d[..|d|] == d;
    if n < 0 { assert Text(n)[1..] == d; }
  }

  /** A plus sign changes nothing, a minus sign negates; leading zeros count for nothing. */
  lemma ParseSigns(d: Bytes)
    requires d != [] && AllDigits(d)
    ensures ParseInt(d) == ParseInt([43] + d) == Clamp(DigitsValue(d))
    ensures ParseInt([45] + d) == Clamp(0 - DigitsValue(d))
  {
    WholeRun(d);
    hide DigitsValue, DigitRun, Clamp;
    assert d[..|d|] == d && ([43] + d)[1..] == d && ([45] + d)[1..] == d && IsDigit(d[0]);
  }

  lemma {:induction false} RunUpTo(d: Bytes, t: Bytes)
    requires AllDigits(d) && t != [] && !IsDigit(t[0])
    ensures DigitRun(d + t) == |d| && (d + t)[..|d|] == d
  {
    if d == [] {
      assert d + t == t;
    } else {
      assert forall i :: 0 <= i < |d[1..]| ==> d[1..][i] == d[i + 1];
      RunUpTo(d[1..], t);
      assert (d + t)[0] == d[0] && (d + t)[1..] == d[1..] + t;
    }
  }

  /**
   Digits that something else follows, however many: no number, and read as 0, unless the digits alone are past
   the largest unsigned 64-bit number. Then reading stops there, at the largest or the smallest int64.
   */
  lemma ParseJunk(d: Bytes, t: Bytes)
    requires d != [] && AllDigits(d) && t != [] && !IsDigit(t[0])
    ensures ParseInt(d + t) == if DigitsValue(d) < TWO64 then 0 else TWO63 - 1
    ensures ParseInt([45] + (d + t)) == if DigitsValue(d) < TWO64 then 0 else -TWO63
  {
    RunUpTo(d, t);
    hide DigitsValue, DigitRun;
    assert ([45] + (d + t))[1..] == d + t && IsDigit((d + t)[0]);
  }
}
