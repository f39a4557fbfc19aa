/**
 The codec as the PHP class runs it: encoders append to an output string passed by reference,
 decoders advance an offset passed by reference, arrays are walked by loops.
 */
module MsgpackCodec {
  import opened Bytes
  import opened Msgpack

  /** `string &$out`. */
  class Output {
    var out: Bytes
    constructor () ensures out == [] { out := []; }
  }

  /** `int &$offset`. */
  class Cursor {
    var offset: nat
    constructor () ensures offset == 0 { offset := 0; }
  }

  method IsList(es: seq<Entry>) returns (r: bool)
    ensures r == ListFrom(es, 0)
  {
    var i := 0;
    while i < |es|
      invariant 0 <= i <= |es|
      invariant forall j :: 0 <= j < i ==> es[j].key == IntKey(j)
    {
      if es[i].key != IntKey(i) { return false; }
      i := i + 1;
    }
    return true;
  }

  method EncodeValue(v: Value, o: Output)
    modifies o
    ensures o.out == old(o.out) + Encode(v)
    decreases v, 1
  {
    match v
    case Null => o.out := o.out + [0xc0];
    case Bool(b) => o.out := o.out + if b then [0xc3] else [0xc2];
    case Bin(d) => o.out := o.out + (BinHeader(|d|) + d);
    case Int(n) => o.out := o.out + EncodeInt(n);
    case Str(s) => o.out := o.out + EncodeStr(s);
    case Arr(es) =>
      var list := IsList(es);
      if list {
        EncodeArray(es, o);
      } else {
        EncodeMap(es, o);
      }
  }

  lemma ElemsPush(es: seq<Entry>, e: Entry)
    ensures EncodeElems(es + [e]) == EncodeElems(es) + Encode(e.value)
  {
    hide Encode;
    if es == [] {
      assert es + [e] == [e];
      assert [e][1..] == [] && EncodeElems([]) == [];
    } else {
      ElemsPush(es[1..], e);
      assert (es + [e])[1..] == es[1..] + [e];
    }
  }

  lemma PairsPush(es: seq<Entry>, e: Entry)
    ensures EncodePairs(es + [e]) == EncodePairs(es) + (EncodeStr(KeyText(e.key)) + Encode(e.value))
  {
    hide Encode, EncodeStr, KeyText;
    if es == [] {
      assert es + [e] == [e];
      assert [e][1..] == [] && EncodePairs([]) == [];
    } else {
      PairsPush(es[1..], e);
      assert (es + [e])[1..] == es[1..] + [e];
    }
  }

  method EncodeArray(es: seq<Entry>, o: Output)
    modifies o
    ensures o.out == old(o.out) + (ArrayHeader(|es|) + EncodeElems(es))
    decreases es, 0
  {
    hide Encode, ArrayHeader;
    o.out := o.out + ArrayHeader(|es|);
    var i := 0;
    while i < |es|
      invariant 0 <= i <= |es|
      invariant o.out == old(o.out) + (ArrayHeader(|es|) + EncodeElems(es[..i]))
    {
      assert es[i].value < es[i];
      EncodeValue(es[i].value, o);
      ElemsPush(es[..i], es[i]);
      assert es[..i + 1] == es[..i] + [es[i]];
      i := i + 1;
    }
    assert es[..i] == es;
  }

  method EncodeMap(es: seq<Entry>, o: Output)
    modifies o
    ensures o.out == old(o.out) + (MapHeader(|es|) + EncodePairs(es))
    decreases es, 0
  {
    hide Encode, EncodeStr, KeyText, MapHeader;
    o.out := o.out + MapHeader(|es|);
    var i := 0;
    while i < |es|
      invariant 0 <= i <= |es|
      invariant o.out == old(o.out) + (MapHeader(|es|) + EncodePairs(es[..i]))
    {
      assert es[i].value < es[i];
      o.out := o.out + EncodeStr(KeyText(es[i].key));
      EncodeValue(es[i].value, o);
      PairsPush(es[..i], es[i]);
      assert es[..i + 1] == es[..i] + [es[i]];
      i := i + 1;
    }
    assert es[..i] == es;
  }

  method EncodeToString(v: Value) returns (out: Bytes)
    ensures out == Encode(v)
  {
    var o := new Output();
    EncodeValue(v, o);
    return o.out;
  }

  datatype Read = Got(value: Value) | Warned | Threw

  /** The method's outcome and the offset it leaves are those of the function. */
  predicate Agrees(r: Read, offset: nat, d: Decoded)
  {
    match d
    case Ok(v, next) => r == Got(v) && offset == next
    case Truncated => r == Warned
    case BadKey => r == Threw
  }

  /** Use a field that was read: move past it, or report why it could not be read. */
  method Take(d: Decoded, c: Cursor) returns (r: Read)
    modifies c
    ensures Agrees(r, c.offset, d)
  {
    match d
    case Ok(v, next) => c.offset := next; r := Got(v);
    case Truncated => r := Warned;
    case BadKey => r := Threw;
  }

  method DecodeAt(data: Bytes, c: Cursor) returns (r: Read)
    modifies c
    ensures Agrees(r, c.offset, DecodeValue(data, old(c.offset)))
    decreases Left(data, c.offset), 0
  {
    hide Words, FromBE, ReadField, ReadStr, DecodePairs, DecodeElems;
    if c.offset >= |data| { return Got(Null); }
    var b: int := data[c.offset];
    c.offset := c.offset + 1;
    if b <= 0x7f { return Got(Int(b)); }
    if b >= 0xe0 { return Got(Int(b - 0x100)); }
    if b <= 0x8f { r := DecodeMap(data, c, b - 0x80); return; }
    if b <= 0x9f { r := DecodeArray(data, c, b - 0x90); return; }
    if b <= 0xbf { r := Take(ReadStr(data, c.offset, b - 0xa0), c); return; }
    match b
    case 0xc2 => r := Got(Bool(false));
    case 0xc3 => r := Got(Bool(true));
    case 0xc4 => r := Take(ReadStrOfWidth(data, c.offset, 1), c);
    case 0xc5 => r := Take(ReadStrOfWidth(data, c.offset, 2), c);
    case 0xc6 => r := Take(ReadStrOfWidth(data, c.offset, 4), c);
    case 0xcc => r := Take(ReadUnsigned(data, c.offset, 1), c);
    case 0xcd => r := Take(ReadUnsigned(data, c.offset, 2), c);
    case 0xce => r := Take(ReadUnsigned(data, c.offset, 4), c);
    case 0xcf => r := Take(ReadSigned(data, c.offset, 8), c);
    case 0xd0 => r := Take(ReadSigned(data, c.offset, 1), c);
    case 0xd1 => r := Take(ReadSigned(data, c.offset, 2), c);
    case 0xd2 => r := Take(ReadSigned(data, c.offset, 4), c);
    case 0xd3 => r := Take(ReadSigned(data, c.offset, 8), c);
    case 0xd9 => r := Take(ReadStrOfWidth(data, c.offset, 1), c);
    case 0xda => r := Take(ReadStrOfWidth(data, c.offset, 2), c);
    case 0xdb => r := Take(ReadStrOfWidth(data, c.offset, 4), c);
    case 0xdc => r := DecodeSized(data, c, 2, false);
    case 0xdd => r := DecodeSized(data, c, 4, false);
    case 0xde => r := DecodeSized(data, c, 2, true);
    case 0xdf => r := DecodeSized(data, c, 4, true);
    case _ => r := Got(Null);
  }

  method DecodeSized(data: Bytes, c: Cursor, k: nat, isMap: bool) returns (r: Read)
    requires k > 0
    modifies c
    ensures Agrees(r, c.offset, DecodeCounted(data, old(c.offset), k, isMap))
    decreases Left(data, c.offset), 0
  {
    hide Words, FromBE, DecodePairs, DecodeElems;
    var f := ReadField(data, c.offset, k);
    if f.Missing? { return Warned; }
    c.offset := c.offset + k;
    if isMap { r := DecodeMap(data, c, f.n); } else { r := DecodeArray(data, c, f.n); }
  }

  method DecodeArray(data: Bytes, c: Cursor, n: nat) returns (r: Read)
    modifies c
    ensures Agrees(r, c.offset, DecodeElems(data, old(c.offset), n, []))
    decreases Left(data, c.offset), n
  {
    hide DecodeValue;
    var arr, i := [], 0;
    while i < n
      invariant 0 <= i <= n && c.offset >= old(c.offset)
      invariant DecodeElems(data, old(c.offset), n, []) == DecodeElems(data, c.offset, n - i, arr)
    {
      r := DecodeAt(data, c);
      if !r.Got? { return; }
      arr := arr + [Entry(IntKey(|arr|), r.value)];
      i := i + 1;
    }
    return Got(Arr(arr));
  }

  method DecodeMap(data: Bytes, c: Cursor, n: nat) returns (r: Read)
    modifies c
    ensures Agrees(r, c.offset, DecodePairs(data, old(c.offset), n, []))
    decreases Left(data, c.offset), n
  {
    hide DecodeValue, KeyOf, Put;
    var map_, i := [], 0;
    while i < n
      invariant 0 <= i <= n && c.offset >= old(c.offset)
      invariant DecodePairs(data, old(c.offset), n, []) == DecodePairs(data, c.offset, n - i, map_)
    {
      var k := DecodeAt(data, c);
      if !k.Got? { return k; }
      var v := DecodeAt(data, c);
      if !v.Got? { return v; }
      var key := KeyOf(k.value);
      if key.NoKey? { return Threw; }
      map_ := Put(map_, key.key, v.value);
      i := i + 1;
    }
    return Got(Arr(map_));
  }
}
