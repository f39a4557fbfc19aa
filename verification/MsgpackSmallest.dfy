/** The encoder picks the smallest format: nothing shorter, read to its end, gives the same integer or string. */
module MsgpackSmallest {
  import opened Bytes
  import opened Msgpack

  lemma {:induction false} ElemsGiveArray(data: Bytes, off: nat, n: nat, acc: seq<Entry>)
    ensures var r := DecodeElems(data, off, n, acc); r.Ok? ==> r.value.Arr?
    decreases Left(data, off), n
  {
    hide DecodeValue;
    if n > 0 {
      var r := DecodeValue(data, off);
      if r.Ok? { ElemsGiveArray(data, r.next, n - 1, acc + [Entry(IntKey(|acc|), r.value)]); }
    }
  }

  lemma {:induction false} PairsGiveArray(data: Bytes, off: nat, n: nat, acc: seq<Entry>)
    ensures var r := DecodePairs(data, off, n, acc); r.Ok? ==> r.value.Arr?
    decreases Left(data, off), n
  {
    hide DecodeValue, KeyOf, Put;
    if n > 0 {
      var k := DecodeValue(data, off);
      if k.Ok? {
        var v := DecodeValue(data, k.next);
        if v.Ok? && KeyOf(k.value).SomeKey? {
          PairsGiveArray(data, v.next, n - 1, Put(acc, KeyOf(k.value).key, v.value));
        }
      }
    }
  }

  lemma CountedGivesArray(data: Bytes, off: nat, k: nat, isMap: bool)
    requires k > 0
    ensures var r := DecodeCounted(data, off, k, isMap); r.Ok? ==> r.value.Arr?
  {
    hide DecodePairs, DecodeElems;
    var f := ReadField(data, off, k);
    if f.Field? {
      PairsGiveArray(data, off + k, f.n, []);
      ElemsGiveArray(data, off + k, f.n, []);
    }
  }

  /** A first byte that opens an array or a map never yields a scalar. */
  lemma ContainerTags(bs: Bytes)
    requires |bs| > 0 && (0x80 <= bs[0] <= 0x9f || 0xdc <= bs[0] <= 0xdf)
    ensures var r := DecodeValue(bs, 0); r.Ok? ==> r.value.Arr?
  {
    hide DecodePairs, DecodeElems, DecodeCounted, Words;
    if bs[0] <= 0x8f { PairsGiveArray(bs, 1, bs[0] - 0x80, []); }
    else if bs[0] <= 0x9f { ElemsGiveArray(bs, 1, bs[0] - 0x90, []); }
    else {
      CountedGivesArray(bs, 1, 2, false);
      CountedGivesArray(bs, 1, 4, false);
      CountedGivesArray(bs, 1, 2, true);
      CountedGivesArray(bs, 1, 4, true);
    }
  }

  /** How many values a field of each width can stand for. */
  predicate Reach(n: int, len: nat)
  {
    && len >= 1
    && (len < 2 ==> -32 <= n <= 0x7f)
    && (len < 3 ==> -128 <= n <= 0xff)
    && (len < 5 ==> -32768 <= n <= 0xffff)
    && (len < 9 ==> -0x8000_0000 <= n <= 0xffff_ffff)
  }

  lemma UnsignedReach(bs: Bytes, k: nat, n: int)
    requires k in {1, 2, 4, 8} && ReadUnsigned(bs, 1, k) == Ok(Int(n), |bs|)
    ensures Reach(n, |bs|)
  {
    hide Words, FromBE;
    WordSizes();
  }

  lemma SignedReach(bs: Bytes, k: nat, n: int)
    requires k in {1, 2, 4, 8} && ReadSigned(bs, 1, k) == Ok(Int(n), |bs|)
    ensures Reach(n, |bs|)
  {
    hide Words, FromBE;
    WordSizes();
  }

  lemma IntReach(n: int, bs: Bytes)
    requires DecodeValue(bs, 0) == Ok(Int(n), |bs|)
    ensures Reach(n, |bs|)
  {
    hide DecodePairs, DecodeElems, DecodeCounted, ReadSigned, ReadUnsigned, ReadField;
    var b: int := bs[0];
    if 0x80 <= b <= 0x9f || 0xdc <= b <= 0xdf { ContainerTags(bs); }
    else if b == 0xcc { UnsignedReach(bs, 1, n); }
    else if b == 0xcd { UnsignedReach(bs, 2, n); }
    else if b == 0xce { UnsignedReach(bs, 4, n); }
    else if b == 0xcf || b == 0xd3 { SignedReach(bs, 8, n); }
    else if b == 0xd0 { SignedReach(bs, 1, n); }
    else if b == 0xd1 { SignedReach(bs, 2, n); }
    else if b == 0xd2 { SignedReach(bs, 4, n); }
  }

  /** No byte string that decodes to `n` when read to its end is shorter than what the encoder writes. */
  lemma SmallestInt(n: int, bs: Bytes)
    requires DecodeValue(bs, 0) == Ok(Int(n), |bs|)
    ensures |EncodeInt(n)| <= |bs|
  {
    hide DecodeValue, BE;
    IntReach(n, bs);
  }

  /** The same for strings: reading any other format to its end costs at least as many bytes. */
  lemma SmallestStr(s: Bytes, bs: Bytes)
    requires DecodeValue(bs, 0) == Ok(Str(s), |bs|)
    ensures |EncodeStr(s)| <= |bs|
  {
    hide DecodePairs, DecodeElems, DecodeCounted, ReadSigned, ReadUnsigned, ReadStrOfWidth, ReadStr, EncodeStr;
    var b: int := bs[0];
    if 0x80 <= b <= 0x9f || 0xdc <= b <= 0xdf { ContainerTags(bs); }
    else if 0xa0 <= b <= 0xbf { StrBodyLength(s, bs, 1, b - 0xa0); }
    else if b == 0xc4 || b == 0xd9 { SizedStr(s, bs, 1); }
    else if b == 0xc5 || b == 0xda { SizedStr(s, bs, 2); }
    else if b == 0xc6 || b == 0xdb { SizedStr(s, bs, 4); }
    else { ScalarTags(bs); }
  }

  /** The remaining first bytes give null, a boolean or an integer. */
  lemma ScalarTags(bs: Bytes)
    requires |bs| > 0
    requires var b: int := bs[0];
             b <= 0x7f || b >= 0xe0 || b in {0xc0, 0xc1, 0xc2, 0xc3, 0xc7, 0xc8, 0xc9, 0xca, 0xcb} || 0xcc <= b <= 0xd8
    ensures var r := DecodeValue(bs, 0); r.Ok? ==> !r.value.Str?
  {
    hide DecodePairs, DecodeElems, DecodeCounted, ReadField;
  }

  lemma StrBodyLength(s: Bytes, bs: Bytes, off: nat, len: nat)
    requires 1 <= off <= |bs| && ReadStr(bs, off, len) == Ok(Str(s), |bs|)
    requires off < 2 ==> len <= 31
    requires off < 3 ==> len <= 0xff
    requires off < 5 ==> len <= 0xffff
    ensures |EncodeStr(s)| <= |bs|
  {
    hide BE;
  }

  lemma SizedStr(s: Bytes, bs: Bytes, k: nat)
    requires k in {1, 2, 4} && |bs| > 0 && ReadStrOfWidth(bs, 1, k) == Ok(Str(s), |bs|)
    ensures |EncodeStr(s)| <= |bs|
  {
    hide Words, FromBE, EncodeStr, ReadStr;
    WordSizes();
    StrBodyLength(s, bs, 1 + k, ReadField(bs, 1, k).n);
  }
}
