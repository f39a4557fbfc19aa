/** Sums over the slots of a sequence: one slot per concurrent caller. */
module Totals {

  function Total<T>(s: seq<T>, w: T -> int): int
  {
    if s == [] then 0 else Total(s[..|s| - 1], w) + w(s[|s| - 1])
  }

  lemma TotalPush<T>(s: seq<T>, x: T, w: T -> int)
    ensures Total(s + [x], w) == Total(s, w) + w(x)
  {
    assert (s + [x])[..|s|] == s;
  }

  lemma {:induction false} TotalJoin<T>(s: seq<T>, t: seq<T>, w: T -> int)
    ensures Total(s + t, w) == Total(s, w) + Total(t, w)
  {
    if t == [] {
      assert s + t == s;
    } else {
      TotalJoin(s, t[..|t| - 1], w);
      assert (s + t)[..|s + t| - 1] == s + t[..|t| - 1];
    }
  }

  lemma {:induction false} TotalSet<T>(s: seq<T>, i: nat, x: T, w: T -> int)
    requires i < |s|
    ensures Total(s[i := x], w) == Total(s, w) - w(s[i]) + w(x)
  {
    var n := |s| - 1;
    if i == n {
      assert s[i := x][..n] == s[..n];
    } else {
      TotalSet(s[..n], i, x, w);
      assert s[i := x][..n] == s[..n][i := x];
    }
  }

  lemma TotalHead<T>(s: seq<T>, w: T -> int)
    requires s != []
    ensures Total(s, w) == w(s[0]) + Total(s[1..], w)
  {
    assert s == [s[0]] + s[1..];
    TotalJoin([s[0]], s[1..], w);
    assert [s[0]][..0] == [];
  }

  lemma {:induction false} TotalNonNegative<T>(s: seq<T>, w: T -> int)
    requires forall i :: 0 <= i < |s| ==> w(s[i]) >= 0
    ensures Total(s, w) >= 0
  {
    if s != [] {
      var t := s[..|s| - 1];
      forall i | 0 <= i < |t| ensures w(t[i]) >= 0 { assert t[i] == s[i]; }
      TotalNonNegative(t, w);
    }
  }

  /** No slot weighs more than the sum. */
  lemma {:induction false} TotalAtLeast<T>(s: seq<T>, i: nat, w: T -> int)
    requires i < |s| && forall k :: 0 <= k < |s| ==> w(s[k]) >= 0
    ensures Total(s, w) >= w(s[i])
  {
    var t := s[..|s| - 1];
    forall k | 0 <= k < |t| ensures w(t[k]) >= 0 { assert t[k] == s[k]; }
    TotalNonNegative(t, w);
    if i < |t| { TotalAtLeast(t, i, w); }
  }

  /** A slot-wise smaller weight has a smaller sum. */
  lemma {:induction false} TotalMonotone<T>(s: seq<T>, v: T -> int, w: T -> int)
    requires forall i :: 0 <= i < |s| ==> v(s[i]) <= w(s[i])
    ensures Total(s, v) <= Total(s, w)
  {
    if s != [] {
      var t := s[..|s| - 1];
      forall i | 0 <= i < |t| ensures v(t[i]) <= w(t[i]) { assert t[i] == s[i]; }
      TotalMonotone(t, v, w);
    }
  }
}
