/** Reading and writing byte layouts with a moving cursor. */
module Layout {
  import opened Bytes
  import opened Protocol
  import Framing

  /** What a decoder comes to: a value, an error it reports, or a slice out of range. */
  datatype Result<T> = Ok(value: T) | Err | Panic {
    predicate IsFailure() { !Ok? }
    function PropagateFailure<U>(): Result<U> requires IsFailure() { if Err? then Err else Panic }
    function Extract(): T requires Ok? { value }
  }

  function W32(n: nat): (r: Bytes)
    ensures |r| == 4
  {
    BE(n, 4)
  }

  type uint32 = n: nat | n < TWO32

  /** Conversion to 32 bits. */
  function U32(n: nat): (r: uint32)
    ensures (n < TWO32 ==> r == n) && (n - r) % 0x1_0000_0000 == 0
  {
    n % TWO32
  }

  predicate Starts(b: Bytes, x: Bytes) { |x| <= |b| && b[..|x|] == x }

  /** A frame: connection type, data type, length of the content, content. */
  function FrameBytes(connType: nat, dataType: nat, content: Bytes): (r: Bytes)
    ensures |r| == HEADER_SIZE + |content|
  {
    W32(connType) + W32(dataType) + W32(|content|) + content
  }

  // ---------------------------------------------------------------- reading

  /** A big-endian word at the cursor. */
  function ReadWord(b: Bytes, at: nat): (r: Result<nat>)
    ensures r.Ok? ==> at + 4 <= |b| && r.value < TWO32 && b[..at + 4] == b[..at] + W32(r.value)
    ensures !r.Ok? ==> r.Panic? && at + 4 > |b|
  {
    if at + 4 > |b| then Panic else
      WordSizes();
      WriteBack(b[at..at + 4]);
      assert b[..at + 4] == b[..at] + b[at..at + 4];
      Ok(FromBE(b[at..at + 4]))
  }

  function ReadBytes(b: Bytes, at: nat, n: nat): (r: Result<Bytes>)
    ensures r.Ok? ==> at + n <= |b| && |r.value| == n && b[..at + n] == b[..at] + r.value
    ensures !r.Ok? ==> r.Panic? && at + n > |b|
  {
    if at + n > |b| then Panic else
      assert b[..at + n] == b[..at] + b[at..at + n];
      Ok(b[at..at + n])
  }

  /** A length word and that many bytes. */
  function ReadSized(b: Bytes, at: nat): (r: Result<Bytes>)
    ensures r.Ok? ==> at + 4 + |r.value| <= |b| && |r.value| < TWO32
                      && b[..at + 4 + |r.value|] == b[..at] + W32(|r.value|) + r.value
    ensures !r.Ok? ==> r.Panic?
  {
    var n :- ReadWord(b, at);
    ReadBytes(b, at + 4, n)
  }

  function Zeros(n: nat): (r: Bytes)
    ensures |r| == n
  {
    seq(n, _ => 0)
  }

  /** The first `n` bytes, zeros standing in for missing ones: a copy into a fresh buffer of length `n`. */
  function Fit(b: Bytes, n: nat): (r: Bytes)
    ensures |r| == n && (n == |b| ==> r == b) && forall i :: 0 <= i < n ==> r[i] == if i < |b| then b[i] else 0
  {
    if n <= |b| then b[..n] else b + Zeros(n - |b|)
  }

  lemma {:induction false} WordThere(b: Bytes, x: Bytes, n: nat)
    requires n < TWO32 && Starts(b, x + W32(n))
    ensures Starts(b, x) && ReadWord(b, |x|) == Ok(n)
  {
    BytesThere(b, x, W32(n));
    WordSizes();
    ReadBack(n, 4);
  }

  lemma BytesThere(b: Bytes, x: Bytes, y: Bytes)
    requires Starts(b, x + y)
    ensures Starts(b, x) && ReadBytes(b, |x|, |y|) == Ok(y) && b[|x|..|x| + |y|] == y
  {
    assert x == (x + y)[..|x|] == b[..|x + y|][..|x|] == b[..|x|];
    assert y == (x + y)[|x|..] == b[..|x + y|][|x|..];
  }

  lemma Long(b: Bytes, x: Bytes)
    requires Starts(b, x)
    ensures |b| >= |x|
  {
  }

  /** The parts of a packed frame. */
  lemma FrameParts(connType: nat, dataType: nat, content: Bytes)
    requires connType < TWO32 && dataType < TWO32 && |content| < TWO32
    ensures var f := FrameBytes(connType, dataType, content);
            && ReadWord(f, 0) == Ok(connType) && ReadWord(f, 4) == Ok(dataType) && ReadWord(f, 8) == Ok(|content|)
            && f[HEADER_SIZE..] == content && Framing.IsFrame(f)
  {
    hide W32, BE, FromBE;
    var f := FrameBytes(connType, dataType, content);
    assert Starts(f, W32(connType) + W32(dataType) + W32(|content|));
    WordThere(f, W32(connType) + W32(dataType), |content|);
    WordThere(f, W32(connType), dataType);
    assert [] + W32(connType) == W32(connType);
    WordThere(f, [], connType);
  }

  /** A word that fits one byte: three zeros in front of it. */
  lemma SmallWord(n: nat)
    requires n < 256
    ensures W32(n) == [0, 0, 0, n]
  {
    BigEndian(n, 4, 0);
    BigEndian(n, 4, 1);
    BigEndian(n, 4, 2);
    BigEndian(n, 4, 3);
    assert Words(0) == 1 && Words(1) == 256 && Words(2) == 0x1_0000 && Words(3) == 0x100_0000;
  }

  lemma FieldThere(b: Bytes, x: Bytes, y: Bytes)
    requires |y| < TWO32 && Starts(b, x + W32(|y|) + y)
    ensures Starts(b, x) && ReadSized(b, |x|) == Ok(y)
  {
    hide ReadBytes, ReadWord, Starts, W32;
    BytesThere(b, x + W32(|y|), y);
    WordThere(b, x, |y|);
  }

  // ---------------------------------------------------------------- writing

  /** A fresh buffer and the cursor that fills it; `ok` turns false for good when a slice is out of range. */
  class Packer {
    const content: array<Byte>
    var end: nat
    var ok: bool
    ghost var done: Bytes

    ghost predicate Valid()
      reads this, content
    {
      ok ==> end == |done| <= content.Length && content[..end] == done
             && forall i :: end <= i < content.Length ==> content[i] == 0
    }

    constructor (n: nat)
      ensures Valid() && ok && end == 0 && done == [] && content.Length == n && fresh(content)
    {
      content, end, ok, done := new Byte[n](_ => 0), 0, true, [];
    }

    /** Fills the next `n` bytes by copying from `src`. */
    method Put(src: Bytes, n: nat)
      requires Valid()
      modifies this, content
      ensures Valid() && ok == (old(ok) && old(end) + n <= content.Length)
      ensures ok ==> end == old(end) + n && done == old(done) + Fit(src, n)
    {
      if !ok || end + n > content.Length {
        ok := false;
        return;
      }
      Copy(src, n);
      hide Fit;
      assert content[..end + n] == content[..end] + content[end..end + n];
      done := done + Fit(src, n);
      end := end + n;
    }

    /** `copy`: as many bytes as there are in `src`, `n` at most. */
    method Copy(src: Bytes, n: nat)
      requires Valid() && ok && end + n <= content.Length
      modifies content
      ensures content[..end] == done && content[end..end + n] == Fit(src, n)
      ensures forall k :: end + n <= k < content.Length ==> content[k] == 0
    {
      var i := 0;
      while i < n && i < |src|
        invariant 0 <= i <= n && i <= |src| && content[..end] == done
        invariant forall k :: 0 <= k < i ==> content[end + k] == src[k]
        invariant forall k :: end + i <= k < content.Length ==> content[k] == 0
      {
        content[end + i] := src[i];
        i := i + 1;
      }
      assert content[end..end + n] == Fit(src, n);
    }

    method PutWord(v: nat)
      requires Valid()
      modifies this, content
      ensures Valid() && ok == (old(ok) && old(end) + 4 <= content.Length)
      ensures ok ==> end == old(end) + 4 && done == old(done) + W32(v)
    {
      Put(W32(v), 4);
    }

    /** The finished buffer. */
    method Finish() returns (r: Result<Bytes>)
      requires Valid() && (ok ==> end == content.Length)
      ensures r == if ok then Ok(done) else Panic
    {
      if !ok { return Panic; }
      assert content[..] == content[..end];
      return Ok(content[..]);
    }
  }
}
