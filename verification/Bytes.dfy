/** Byte strings and big-endian integers, as `encoding/binary`, `pack` and `readUInt32BE` lay them out. */
module Bytes {

  type Byte = b: int | 0 <= b < 256
  type Bytes = seq<Byte>

  const TWO32 := 0x1_0000_0000
  const TWO63 := 0x8000_0000_0000_0000
  const TWO64 := 0x1_0000_0000_0000_0000

  /** 256 to the power `k`: the number of values a `k`-byte word can hold. */
  function Words(k: nat): (r: nat)
    ensures r > 0
  {
    if k == 0 then 1 else 256 * Words(k - 1)
  }

  /** The low `k` bytes of `n`, most significant first. */
  function BE(n: nat, k: nat): (r: Bytes)
    ensures |r| == k
  {
    if k == 0 then [] else BE(n / 256, k - 1) + [n % 256]
  }

  function FromBE(bs: Bytes): (n: nat)
    ensures n < Words(|bs|)
  {
    if bs == [] then 0 else FromBE(bs[..|bs| - 1]) * 256 + bs[|bs| - 1]
  }

  /** The most significant byte comes first: byte `i` counts multiples of 256 to the power `k - 1 - i`. */
  lemma {:induction false} BigEndian(n: nat, k: nat, i: nat)
    requires i < k
    ensures BE(n, k)[i] == n / Words(k - 1 - i) % 256
  {
    if i < k - 1 {
      BigEndian(n / 256, k - 1, i);
      DivDiv(n, Words(k - 2 - i));
    }
  }

  lemma DivDiv(n: nat, m: nat)
    requires m > 0
    ensures n / 256 / m == n / (256 * m)
  {
    var q, r := n / (256 * m), n % (256 * m);
    assert n == (256 * m) * q + r && 0 <= r < 256 * m;
    assert (256 * m) * q == 256 * (m * q);
    assert n / 256 == m * q + r / 256;
    assert 0 <= r / 256 < m;
    Quotient(n / 256, m, q, r / 256);
  }

  lemma Quotient(a: nat, m: nat, q: nat, r: nat)
    requires a == m * q + r && r < m
    ensures a / m == q
  {
    var d := a / m - q;
    assert a == m * (a / m) + a % m;
    assert m * d == r - a % m;
    assert d >= 1 ==> m * d >= m;
    assert d <= -1 ==> m * d + m <= 0;
  }

  lemma WordSizes()
    ensures Words(1) == 0x100 && Words(2) == 0x1_0000 && Words(4) == TWO32 && Words(8) == TWO64
  {
    assert Words(3) == 0x100_0000;
    assert Words(6) == 0x1_0000_0000_0000;
  }

  /** Reading back what was written gives the number, when the word is wide enough for it. */
  lemma {:induction false} ReadBack(n: nat, k: nat)
    requires n < Words(k)
    ensures FromBE(BE(n, k)) == n
  {
    if k > 0 {
      ReadBack(n / 256, k - 1);
      assert BE(n, k)[..k - 1] == BE(n / 256, k - 1);
    }
  }

  /** Writing back what was read gives the same bytes. */
  lemma {:induction false} WriteBack(bs: Bytes)
    ensures BE(FromBE(bs), |bs|) == bs
  {
    if bs != [] {
      WriteBack(bs[..|bs| - 1]);
      var hi, lo := FromBE(bs[..|bs| - 1]), bs[|bs| - 1];
      assert (hi * 256 + lo) / 256 == hi && (hi * 256 + lo) % 256 == lo;
    }
  }

  /** A field at a known place inside a larger byte string. */
  lemma SliceAt(pre: Bytes, mid: Bytes, post: Bytes)
    ensures (pre + mid + post)[|pre|..|pre| + |mid|] == mid
  {
  }

  function Concat(fs: seq<Bytes>): Bytes
  {
    if fs == [] then [] else fs[0] + Concat(fs[1..])
  }

  lemma ConcatCons(f: Bytes, fs: seq<Bytes>)
    ensures Concat([f] + fs) == f + Concat(fs)
  {
    assert ([f] + fs)[1..] == fs;
  }

  lemma {:induction false} ConcatJoin(a: seq<Bytes>, b: seq<Bytes>)
    ensures Concat(a + b) == Concat(a) + Concat(b)
  {
    if a == [] {
      assert a + b == b;
    } else {
      ConcatJoin(a[1..], b);
      assert (a + b)[1..] == a[1..] + b && (a + b)[0] == a[0];
      assert a[0] + (Concat(a[1..]) + Concat(b)) == a[0] + Concat(a[1..]) + Concat(b);
    }
  }

  lemma ConcatPush(a: seq<Bytes>, f: Bytes)
    ensures Concat(a + [f]) == Concat(a) + f
  {
    ConcatJoin(a, [f]);
    assert [f][1..] == [] && Concat([]) == [];
    assert Concat([f]) == f;
  }
}
