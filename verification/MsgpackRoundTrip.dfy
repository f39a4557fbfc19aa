/** Decoding undoes encoding, at any nesting depth and wherever the encoding sits in a longer string. */
module MsgpackRoundTrip {
  import opened Bytes
  import opened Int64
  import opened Msgpack

  /** `x` occurs in `data` at `off`. */
  predicate At(data: Bytes, off: nat, x: Bytes)
  {
    off + |x| <= |data| && data[off..off + |x|] == x
  }

  lemma AtSplit(data: Bytes, off: nat, x: Bytes, y: Bytes)
    requires At(data, off, x + y)
    ensures At(data, off, x) && At(data, off + |x|, y)
  {
    assert data[off..off + |x|] == (x + y)[..|x|];
    assert data[off + |x|..off + |x| + |y|] == (x + y)[|x|..];
  }

  lemma TagAt(data: Bytes, off: nat, tag: Byte, y: Bytes)
    requires At(data, off, [tag] + y)
    ensures off < |data| && data[off] == tag && At(data, off + 1, y)
  {
    AtSplit(data, off, [tag], y);
    assert data[off..off + 1][0] == data[off];
  }

  lemma LoneTagAt(data: Bytes, off: nat, tag: Byte)
    requires At(data, off, [tag])
    ensures off < |data| && data[off] == tag
  {
    assert data[off..off + 1][0] == data[off];
  }

  lemma FieldAt(data: Bytes, off: nat, n: nat, k: nat)
    requires At(data, off, BE(n, k)) && n < Words(k)
    ensures ReadField(data, off, k) == Field(n)
  {
    ReadBack(n, k);
    hide BE, FromBE, Words;
    assert data[off..off + k] == BE(n, k);
  }

  /** A one-byte tag followed by a big-endian field. */
  lemma TagFieldAt(data: Bytes, off: nat, tag: Byte, n: nat, k: nat)
    requires At(data, off, [tag] + BE(n, k)) && n < Words(k)
    ensures off < |data| && data[off] == tag && ReadField(data, off + 1, k) == Field(n)
  {
    TagAt(data, off, tag, BE(n, k));
    FieldAt(data, off + 1, n, k);
  }

  lemma StrAt(data: Bytes, off: nat, s: Bytes)
    requires At(data, off, s)
    ensures ReadStr(data, off, |s|) == Ok(Str(s), off + |s|)
  {
  }

  lemma UnsignedAt(data: Bytes, off: nat, n: nat, k: nat)
    requires k == 1 || k == 2 || k == 4
    requires n < Words(k) && At(data, off, [if k == 1 then 0xcc else if k == 2 then 0xcd else 0xce] + BE(n, k))
    ensures DecodeValue(data, off) == Ok(Int(n), off + 1 + k)
  {
    TagFieldAt(data, off, if k == 1 then 0xcc else if k == 2 then 0xcd else 0xce, n, k);
    hide BE, FromBE, Words, At, ReadField;
  }

  /** The two's complement of a `k`-byte integer. */
  function Complement(n: int, k: nat): int { if n < 0 then n + Words(k) else n }

  lemma SignedAt(data: Bytes, off: nat, n: int, k: nat)
    requires (k == 1 || k == 2 || k == 4 || k == 8) && 0 <= Words(k) + 2 * n && 2 * n < Words(k)
    requires 0 <= Complement(n, k)
    requires At(data, off, [if k == 1 then 0xd0 else if k == 2 then 0xd1 else if k == 4 then 0xd2 else 0xd3]
                           + BE(Complement(n, k), k))
    ensures DecodeValue(data, off) == Ok(Int(n), off + 1 + k)
  {
    var tag := if k == 1 then 0xd0 else if k == 2 then 0xd1 else if k == 4 then 0xd2 else 0xd3;
    TagFieldAt(data, off, tag, Complement(n, k), k);
    WordSizes();
    hide BE, FromBE, Words, At, ReadField;
  }

  lemma OneByteIntAt(data: Bytes, off: nat, n: int)
    requires -32 <= n <= 0x7f && At(data, off, [if n < 0 then n + 0x100 else n])
    ensures DecodeValue(data, off) == Ok(Int(n), off + 1)
  {
    LoneTagAt(data, off, if n < 0 then n + 0x100 else n);
    hide At;
  }

  lemma IntReadBack(n: int, data: Bytes, off: nat)
    requires InRange(n) && At(data, off, EncodeInt(n))
    ensures DecodeValue(data, off) == Ok(Int(n), off + |EncodeInt(n)|)
  {
    WordSizes();
    hide BE, Words, DecodeValue, At;
    if -32 <= n <= 0x7f { OneByteIntAt(data, off, n); }
    else if 0 <= n <= 0xff { UnsignedAt(data, off, n, 1); }
    else if 0 <= n <= 0xffff { UnsignedAt(data, off, n, 2); }
    else if 0 <= n <= 0xffff_ffff { UnsignedAt(data, off, n, 4); }
    else if -128 <= n < 0 { SignedAt(data, off, n, 1); }
    else if -32768 <= n < 0 { SignedAt(data, off, n, 2); }
    else if -0x8000_0000 <= n < 0 { SignedAt(data, off, n, 4); }
    else { SignedAt(data, off, n, 8); }
  }

  /** The tag of a string or container that is followed by a field of `k` bytes. */
  lemma LengthAt(data: Bytes, off: nat, tag: Byte, n: nat, k: nat)
    requires n < Words(k) && At(data, off, [tag] + BE(n, k))
    requires match tag
             case 0xc4 => k == 1 case 0xc5 => k == 2 case 0xc6 => k == 4
             case 0xd9 => k == 1 case 0xda => k == 2 case 0xdb => k == 4
             case _ => false
    ensures DecodeValue(data, off) == ReadStr(data, off + 1 + k, n)
  {
    TagFieldAt(data, off, tag, n, k);
    hide BE, FromBE, Words, At, ReadField, ReadStr;
  }

  lemma CountAt(data: Bytes, off: nat, n: nat, k: nat, isMap: bool)
    requires (k == 2 || k == 4) && n < Words(k)
    requires At(data, off, [if isMap then 0xde + k / 4 else 0xdc + k / 4] + BE(n, k))
    ensures DecodeValue(data, off)
            == if isMap then DecodePairs(data, off + 1 + k, n, []) else DecodeElems(data, off + 1 + k, n, [])
  {
    TagFieldAt(data, off, if isMap then 0xde + k / 4 else 0xdc + k / 4, n, k);
    hide BE, FromBE, Words, At, ReadField, DecodeElems, DecodePairs;
  }

  /** The tag that holds the length or count itself. */
  lemma ShortAt(data: Bytes, off: nat, tag: Byte)
    requires 0x80 <= tag <= 0xbf && At(data, off, [tag])
    ensures DecodeValue(data, off) == if tag <= 0x8f then DecodePairs(data, off + 1, tag - 0x80, [])
                                      else if tag <= 0x9f then DecodeElems(data, off + 1, tag - 0x90, [])
                                      else ReadStr(data, off + 1, tag - 0xa0)
  {
    LoneTagAt(data, off, tag);
    hide At, DecodeElems, DecodePairs, ReadStr;
  }

  lemma StrHeaderReadBack(len: nat, data: Bytes, off: nat)
    requires len < TWO32 && At(data, off, StrHeader(len))
    ensures DecodeValue(data, off) == ReadStr(data, off + |StrHeader(len)|, len)
  {
    WordSizes();
    hide BE, Words, DecodeValue, At, ReadStr;
    if len <= 31 { ShortAt(data, off, 0xa0 + len); }
    else if len <= 0xff { LengthAt(data, off, 0xd9, len, 1); }
    else if len <= 0xffff { LengthAt(data, off, 0xda, len, 2); }
    else { LengthAt(data, off, 0xdb, len, 4); }
  }

  lemma StrReadBack(s: Bytes, data: Bytes, off: nat)
    requires |s| < TWO32 && At(data, off, EncodeStr(s))
    ensures DecodeValue(data, off) == Ok(Str(s), off + |EncodeStr(s)|)
  {
    hide DecodeValue, StrHeader, ReadStr, At;
    AtSplit(data, off, StrHeader(|s|), s);
    StrHeaderReadBack(|s|, data, off);
    StrAt(data, off + |StrHeader(|s|)|, s);
  }

  lemma BinHeaderReadBack(len: nat, data: Bytes, off: nat)
    requires len < TWO32 && At(data, off, BinHeader(len))
    ensures DecodeValue(data, off) == ReadStr(data, off + |BinHeader(len)|, len)
  {
    WordSizes();
    hide BE, Words, DecodeValue, At, ReadStr;
    if len <= 0xff { LengthAt(data, off, 0xc4, len, 1); }
    else if len <= 0xffff { LengthAt(data, off, 0xc5, len, 2); }
    else { LengthAt(data, off, 0xc6, len, 4); }
  }

  lemma BinReadBack(s: Bytes, data: Bytes, off: nat)
    requires |s| < TWO32 && At(data, off, BinHeader(|s|) + s)
    ensures DecodeValue(data, off) == Ok(Str(s), off + |BinHeader(|s|) + s|)
  {
    hide DecodeValue, BinHeader, ReadStr, At;
    AtSplit(data, off, BinHeader(|s|), s);
    BinHeaderReadBack(|s|, data, off);
    StrAt(data, off + |BinHeader(|s|)|, s);
  }

  lemma ConstReadBack(v: Value, data: Bytes, off: nat)
    requires (v.Null? || v.Bool?) && At(data, off, Encode(v))
    ensures DecodeValue(data, off) == Ok(v, off + |Encode(v)|)
  {
    LoneTagAt(data, off, Encode(v)[0]);
  }

  lemma ArrayHeaderReadBack(n: nat, data: Bytes, off: nat)
    requires n < TWO32 && At(data, off, ArrayHeader(n))
    ensures DecodeValue(data, off) == DecodeElems(data, off + |ArrayHeader(n)|, n, [])
  {
    WordSizes();
    hide BE, Words, DecodeValue, DecodeElems, At;
    if n <= 15 { ShortAt(data, off, 0x90 + n); }
    else { CountAt(data, off, n, if n <= 0xffff then 2 else 4, false); }
  }

  lemma MapHeaderReadBack(n: nat, data: Bytes, off: nat)
    requires n < TWO32 && At(data, off, MapHeader(n))
    ensures DecodeValue(data, off) == DecodePairs(data, off + |MapHeader(n)|, n, [])
  {
    WordSizes();
    hide BE, Words, DecodeValue, DecodePairs, At;
    if n <= 15 { ShortAt(data, off, 0x80 + n); }
    else { CountAt(data, off, n, if n <= 0xffff then 2 else 4, true); }
  }

  /** Round trip: the decoder returns the value and stops exactly at the end of its encoding. */
  lemma {:induction false} ValueReadBack(v: Value, data: Bytes, off: nat)
    requires Supported(v) && At(data, off, Encode(v))
    ensures DecodeValue(data, off) == Ok(Plain(v), off + |Encode(v)|)
    decreases v, 1
  {
    hide DecodeValue, DecodeElems, DecodePairs, EncodeElems, EncodePairs, EncodeInt, EncodeStr;
    hide PlainEntries, SupportedEntries, ArrayHeader, MapHeader, BinHeader, DistinctKeys, ListFrom;
    match v
    case Null => ConstReadBack(v, data, off);
    case Bool(_) => ConstReadBack(v, data, off);
    case Bin(d) => BinReadBack(d, data, off);
    case Int(n) => IntReadBack(n, data, off);
    case Str(s) => StrReadBack(s, data, off);
    case Arr(es) =>
      if ListFrom(es, 0) {
        AtSplit(data, off, ArrayHeader(|es|), EncodeElems(es));
        ArrayHeaderReadBack(|es|, data, off);
        ElemsReadBack(es, data, off + |ArrayHeader(|es|)|, []);
        assert [] + PlainEntries(es) == PlainEntries(es);
      } else {
        AtSplit(data, off, MapHeader(|es|), EncodePairs(es));
        MapHeaderReadBack(|es|, data, off);
        assert [] + es == es;
        PairsReadBack(es, data, off + |MapHeader(|es|)|, []);
        assert [] + PlainEntries(es) == PlainEntries(es);
      }
  }

  lemma {:induction false} ElemsReadBack(es: seq<Entry>, data: Bytes, off: nat, acc: seq<Entry>)
    requires SupportedEntries(es) && ListFrom(es, |acc|) && At(data, off, EncodeElems(es))
    ensures DecodeElems(data, off, |es|, acc) == Ok(Arr(acc + PlainEntries(es)), off + |EncodeElems(es)|)
    decreases es, 0
  {
    hide DecodeValue, Encode, Plain, Supported, KeyText, NormKey, ValidKey, At;
    if es == [] {
      assert acc + PlainEntries(es) == acc;
    } else {
      hide DecodeElems, PlainEntries;
      var e, rest := es[0], es[1..];
      assert e.value < e;
      AtSplit(data, off, Encode(e.value), EncodeElems(rest));
      ValueReadBack(e.value, data, off);
      var next := off + |Encode(e.value)|;
      var acc' := acc + [Entry(e.key, Plain(e.value))];
      ElemStep(data, off, |es|, acc, Plain(e.value), next);
      ListTail(es, |acc|);
      ElemsReadBack(rest, data, next, acc');
      PlainStep(es, acc);
    }
  }

  lemma ListTail(es: seq<Entry>, base: nat)
    requires |es| > 0 && ListFrom(es, base)
    ensures es[0].key == IntKey(base) && ListFrom(es[1..], base + 1)
  {
    forall i | 0 <= i < |es| - 1 ensures es[1..][i].key == IntKey(base + 1 + i) {
      assert es[1..][i] == es[i + 1];
    }
  }

  /** One turn of the `decodeArray` loop. */
  lemma ElemStep(data: Bytes, off: nat, n: nat, acc: seq<Entry>, v: Value, next: nat)
    requires n > 0 && DecodeValue(data, off) == Ok(v, next)
    ensures DecodeElems(data, off, n, acc) == DecodeElems(data, next, n - 1, acc + [Entry(IntKey(|acc|), v)])
  {
    hide DecodeValue;
  }

  lemma PlainStep(es: seq<Entry>, acc: seq<Entry>)
    requires |es| > 0
    ensures acc + [Entry(es[0].key, Plain(es[0].value))] + PlainEntries(es[1..]) == acc + PlainEntries(es)
  {
    hide Plain;
  }

  lemma {:induction false} PairsReadBack(es: seq<Entry>, data: Bytes, off: nat, acc: seq<Entry>)
    requires SupportedEntries(es) && DistinctKeys(acc + es) && At(data, off, EncodePairs(es))
    ensures DecodePairs(data, off, |es|, acc) == Ok(Arr(acc + PlainEntries(es)), off + |EncodePairs(es)|)
    decreases es, 0
  {
    hide DecodeValue, Encode, EncodeStr, Plain, Supported, KeyText, NormKey, ValidKey, DistinctKeys, Put, At, KeyOf;
    if es == [] {
      assert acc + PlainEntries(es) == acc;
    } else {
      hide DecodePairs, PlainEntries;
      var e, rest := es[0], es[1..];
      assert e.value < e;
      PairReadBack(e, EncodePairs(rest), data, off);
      var mid := off + |EncodeStr(KeyText(e.key))|;
      var next := mid + |Encode(e.value)|;
      PutNewKey(acc, es, Plain(e.value));
      PairStep(data, off, |es|, acc, Str(KeyText(e.key)), mid, e.key, Plain(e.value), next);
      PairsReadBack(rest, data, next, acc + [Entry(e.key, Plain(e.value))]);
      PlainStep(es, acc);
    }
  }

  /** One turn of the `decodeMap` loop. */
  lemma PairStep(data: Bytes, off: nat, n: nat, acc: seq<Entry>, k: Value, mid: nat, key: Key, v: Value, next: nat)
    requires n > 0 && DecodeValue(data, off) == Ok(k, mid) && DecodeValue(data, mid) == Ok(v, next)
    requires KeyOf(k) == SomeKey(key)
    ensures DecodePairs(data, off, n, acc) == DecodePairs(data, next, n - 1, Put(acc, key, v))
  {
    hide DecodeValue, KeyOf, Put;
  }

  /** One key and its value, followed by `more`. */
  lemma PairReadBack(e: Entry, more: Bytes, data: Bytes, off: nat)
    requires ValidKey(e.key) && |KeyText(e.key)| < TWO32 && Supported(e.value)
    requires At(data, off, EncodeStr(KeyText(e.key)) + Encode(e.value) + more)
    ensures var mid := off + |EncodeStr(KeyText(e.key))|;
            && DecodeValue(data, off) == Ok(Str(KeyText(e.key)), mid)
            && KeyOf(Str(KeyText(e.key))) == SomeKey(e.key)
            && DecodeValue(data, mid) == Ok(Plain(e.value), mid + |Encode(e.value)|)
            && At(data, mid + |Encode(e.value)|, more)
    decreases e, 0
  {
    hide DecodeValue, Encode, EncodeStr, Plain, Supported, KeyText, NormKey, ValidKey, At;
    var k, v := EncodeStr(KeyText(e.key)), Encode(e.value);
    assert k + v + more == k + (v + more);
    AtSplit(data, off, k, v + more);
    AtSplit(data, off + |k|, v, more);
    StrReadBack(KeyText(e.key), data, off);
    ValueReadBack(e.value, data, off + |k|);
    KeyTextReadBack(e.key);
  }

  /** Adding a pair whose key is new keeps the keys distinct. */
  lemma PutNewKey(acc: seq<Entry>, es: seq<Entry>, v: Value)
    requires |es| > 0 && DistinctKeys(acc + es)
    ensures Put(acc, es[0].key, v) == acc + [Entry(es[0].key, v)]
    ensures DistinctKeys(acc + [Entry(es[0].key, v)] + es[1..])
  {
    var all, now := acc + es, acc + [Entry(es[0].key, v)] + es[1..];
    forall i | 0 <= i < |acc| ensures acc[i].key != es[0].key {
      assert all[i] == acc[i] && all[|acc|] == es[0];
    }
    forall i, j | 0 <= i < j < |now| ensures now[i].key != now[j].key {
      assert now[i].key == all[i].key && now[j].key == all[j].key;
    }
  }

  /** The round trip in the form a caller uses: anything before, anything after. */
  lemma RoundTrip(v: Value, pre: Bytes, rest: Bytes)
    requires Supported(v)
    ensures DecodeValue(pre + Encode(v) + rest, |pre|) == Ok(Plain(v), |pre| + |Encode(v)|)
  {
    SliceAt(pre, Encode(v), rest);
    ValueReadBack(v, pre + Encode(v) + rest, |pre|);
  }

  /** Encodings are prefix-free: if one is a prefix of another, they are the same bytes of the same value. */
  lemma PrefixFree(v: Value, w: Value)
    requires Supported(v) && Supported(w) && Encode(v) <= Encode(w)
    ensures Encode(v) == Encode(w) && Plain(v) == Plain(w)
  {
    ValueReadBack(v, Encode(w), 0);
    ValueReadBack(w, Encode(w), 0);
  }
}
