/** The arithmetic of zone scheduling: what the products and quotients of weights amount to. */
module SchedulerShares {
  import opened Bytes
  import opened Int64

  function Sum(ws: seq<int>): int { if ws == [] then 0 else Sum(ws[..|ws| - 1]) + ws[|ws| - 1] }

  function Product(ts: seq<int>): int { if ts == [] then 1 else Product(ts[..|ts| - 1]) * ts[|ts| - 1] }

  /** The product of all totals but one. */
  function Others(ts: seq<int>, i: nat): int
    requires i < |ts|
  {
    var n := |ts| - 1;
    if i == n then Product(ts[..n]) else Others(ts[..n], i) * ts[n]
  }

  function Scaled(ws: seq<int>, f: int): seq<int> { seq(|ws|, i requires 0 <= i < |ws| => ws[i] * f) }

  predicate Positive(ts: seq<int>) { forall i :: 0 <= i < |ts| ==> ts[i] > 0 }

  lemma {:induction false} OthersTimes(ts: seq<int>, i: nat)
    requires i < |ts|
    ensures Product(ts) == Others(ts, i) * ts[i]
  {
    var n := |ts| - 1;
    if i < n {
      OthersTimes(ts[..n], i);
      var o, t, l := Others(ts[..n], i), ts[i], ts[n];
      assert (o * t) * l == (o * l) * t;
    }
  }

  lemma {:induction false} ProductPositive(ts: seq<int>)
    requires Positive(ts)
    ensures Product(ts) > 0
  {
    if ts != [] {
      ProductPositive(ts[..|ts| - 1]);
    }
  }

  lemma {:induction false} OthersPositive(ts: seq<int>, i: nat)
    requires Positive(ts) && i < |ts|
    ensures Others(ts, i) > 0
  {
    var n := |ts| - 1;
    ProductPositive(ts[..n]);
    if i < n { OthersPositive(ts[..n], i); }
  }

  /** No total exceeds the product of all. */
  lemma TotalBelowProduct(ts: seq<int>, i: nat)
    requires Positive(ts) && i < |ts|
    ensures 0 < ts[i] <= Product(ts)
  {
    OthersTimes(ts, i);
    OthersPositive(ts, i);
    var o, t := Others(ts, i), ts[i];
    assert o * t >= 1 * t;
  }

  lemma {:induction false} SumScaled(ws: seq<int>, f: int)
    ensures Sum(Scaled(ws, f)) == Sum(ws) * f
  {
    if ws != [] {
      var n := |ws| - 1;
      assert Scaled(ws, f)[..n] == Scaled(ws[..n], f);
      SumScaled(ws[..n], f);
    }
  }

  lemma {:induction false} SumBounds(ws: seq<int>, k: nat)
    requires Positive(ws) && k < |ws|
    ensures 0 < ws[k] <= Sum(ws)
  {
    var n := |ws| - 1;
    if k < n {
      SumBounds(ws[..n], k);
    } else if n > 0 {
      SumBounds(ws[..n], 0);
    }
  }

  // ---------------------------------------------------------------- wrap-around

  /** Sum as the code accumulates it, wrapping at every addition. */
  function WrapSum(ws: seq<int>): int64 { if ws == [] then 0 else Wrap(WrapSum(ws[..|ws| - 1]) + ws[|ws| - 1]) }

  function WrapProduct(ts: seq<int>): int64 { if ts == [] then 1 else Wrap(WrapProduct(ts[..|ts| - 1]) * ts[|ts| - 1]) }

  lemma {:induction false} WrapSumIs(ws: seq<int>)
    ensures WrapSum(ws) == Wrap(Sum(ws))
  {
    if ws != [] {
      var n := |ws| - 1;
      WrapSumIs(ws[..n]);
      WrapAdd(Sum(ws[..n]), ws[n]);
    }
  }

  lemma {:induction false} WrapProductIs(ts: seq<int>)
    ensures WrapProduct(ts) == Wrap(Product(ts))
  {
    if ts != [] {
      var n := |ts| - 1;
      WrapProductIs(ts[..n]);
      WrapMul(Product(ts[..n]), ts[n]);
    }
  }

  // ---------------------------------------------------------------- shares

  /** The factor of a zone as the code computes it, from the scheduled weight, the product and the zone's total. */
  function Factor(weight: int, product: int, total: int): int64
    requires total != 0
  {
    Wrap(TruncDiv(Wrap(weight * product), total))
  }

  /**
   With overflow as well: the factor is the truncated quotient of an int64 that differs from the true product by
   a multiple of 2^64. Only the quotient of the smallest int64 by -1 does not fit, and wraps.
   */
  lemma FactorMeans(weight: int, product: int, total: int)
    requires total != 0
    ensures var p, f := Wrap(weight * product), Factor(weight, product, total);
            && (exists k :: p == weight * product + k * TWO64)
            && if p == -TWO63 && total == -1 then f == -TWO63
               else var rem := p - f * total;
                    -Abs(total) < rem < Abs(total) && (p >= 0 ==> rem >= 0) && (p <= 0 ==> rem <= 0)
  {
    var p := Wrap(weight * product);
    WrapMod(weight * product);
    TruncDivMeans(p, total);
    QuotientFits(p, total);
    hide TruncDiv, Wrap;
    if p == -TWO63 && total == -1 { MinByMinusOne(); }
  }

  lemma MinByMinusOne()
    ensures Wrap(TruncDiv(-TWO63, -1)) == -TWO63
  {
  }

  lemma QuotientFits(p: int64, total: int)
    requires total != 0
    ensures !(p == -TWO63 && total == -1) ==> InRange(TruncDiv(p, total))
  {
    var a: nat := Abs(p);
    QuotientBelow(a, total);
    var q := a / total;
    assert TruncDiv(p, total) == if p >= 0 then q else -q;
    hide TruncDiv;
    assert InRange(p) && a <= TWO63;
  }

  /** A quotient is no larger than what is divided, and at most half of it unless the divisor is a unit. */
  lemma QuotientBelow(a: nat, b: int)
    requires b != 0
    ensures b > 0 ==> 0 <= a / b <= a
    ensures b < 0 ==> 0 <= a + a / b && a / b <= 0 && (b < -1 ==> 0 <= a + 2 * (a / b))
  {
    var q := a / b;
    assert a == q * b + a % b;
    if b > 0 {
      if q < 0 { Sign(q + 1, b); assert false; }
      Sign(-q, b - 1);
    } else {
      if q > 0 { Sign(1 - q, -b); assert false; }
      Sign(q, -b - 1);
      if b < -1 { Sign(q, -b - 2); }
    }
  }

  lemma Sign(x: int, y: int)
    requires x <= 0 <= y
    ensures x * y <= 0
  {
  }

  /** The division is exact: a zone's factor is its scheduled weight times the product of the other zones' totals. */
  lemma FactorExact(weight: int, ts: seq<int>, i: nat)
    requires Positive(ts) && i < |ts| && InRange(weight * Product(ts))
    ensures Factor(weight, Product(ts), ts[i]) == weight * Others(ts, i)
    ensures (weight * Others(ts, i)) * ts[i] == weight * Product(ts)
  {
    OthersTimes(ts, i);
    FactorOf(weight, Others(ts, i), ts[i]);
  }

  lemma FactorOf(weight: int, o: int, t: int)
    requires t > 0 && InRange(weight * (o * t))
    ensures Factor(weight, o * t, t) == weight * o && (weight * o) * t == weight * (o * t)
  {
    hide TruncDiv, Wrap;
    var q := weight * o;
    assert weight * (o * t) == q * t;
    TruncDivExact(q, t);
    Shrinks(q, t);
  }

  /** Dividing by a positive number keeps a value in range. */
  lemma Shrinks(q: int, t: int)
    requires t > 0 && InRange(q * t)
    ensures InRange(q)
  {
    Grows(q, t);
  }

  lemma Grows(q: int, t: int)
    requires t > 0
    ensures if q >= 0 then q * t >= q else q * t <= q
  {
    assert q * t == q * (t - 1) + q;
  }

  lemma PartInRange(w: int, total: int, f: int)
    requires 0 < w <= total && InRange(f * total)
    ensures InRange(w * f)
  {
    Between(w, total, f);
    assert w * f == f * w;
  }

  lemma Between(w: int, total: int, f: int)
    requires 0 < w <= total
    ensures if f >= 0 then 0 <= f * w <= f * total else f * total <= f * w <= 0
  {
    assert f * total == f * w + f * (total - w);
  }

  /**
   Zone `i`'s new weights sum to its scheduled weight times the product of all totals, no new weight
   overflows, and ratios inside the zone are kept.
   */
  lemma ZoneShare(weight: int, ts: seq<int>, i: nat, ws: seq<int>)
    requires Positive(ts) && i < |ts| && InRange(weight * Product(ts))
    requires Positive(ws) && ts[i] == Sum(ws)
    ensures var f := Factor(weight, Product(ts), ts[i]);
            && Sum(Scaled(ws, f)) == weight * Product(ts)
            && forall k :: 0 <= k < |ws| ==> InRange(ws[k] * f)
  {
    FactorExact(weight, ts, i);
    var f := Factor(weight, Product(ts), ts[i]);
    SumScaled(ws, f);
    forall k | 0 <= k < |ws| ensures InRange(ws[k] * f) {
      SumBounds(ws, k);
      PartInRange(ws[k], Sum(ws), f);
    }
  }
}
