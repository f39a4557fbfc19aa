/** The return structure { Code, Msg, Data } that workers send back, packed by the codec. */
module RetStruct {
  import opened Bytes
  import opened Decimal
  import opened Int64
  import opened Msgpack
  import opened MsgpackRoundTrip
  import MsgpackFormats

  const CODE: Bytes := [67, 111, 100, 101]
  const MSG: Bytes := [77, 115, 103]
  const DATA: Bytes := [68, 97, 116, 97]

  function Record(code: int, msg: Bytes, data: Bytes): Value
  {
    Arr([Entry(StrKey(CODE), Int(code)), Entry(StrKey(MSG), Str(msg)), Entry(StrKey(DATA), Bin(data))])
  }

  function Build(code: int, msg: Bytes, data: Bytes): Bytes { Encode(Record(code, msg, data)) }

  /** `NoCast` covers PHP's numeric reading of strings and its text for arrays, which are not modelled. */
  datatype Parsed = Fields(code: int, msg: Bytes, data: Bytes) | NotArray | Unreadable | NoCast

  function Lookup(es: seq<Entry>, k: Key): Value
  {
    if es == [] then Null else if es[0].key == k then es[0].value else Lookup(es[1..], k)
  }

  datatype Cast<T> = Value(v: T) | Other

  /** `isset($x) ? (int)$x : 0`. */
  function AsInt(v: Value): Cast<int>
  {
    match v
    case Null => Value(0)
    case Bool(b) => Value(if b then 1 else 0)
    case Int(n) => Value(n)
    case _ => Other
  }

  /** `isset($x) ? (string)$x : ''`. */
  function AsText(v: Value): Cast<Bytes>
  {
    match v
    case Null => Value([])
    case Bool(b) => Value(if b then [49] else [])
    case Int(n) => Value(Text(n))
    case Str(s) => Value(s)
    case _ => Other
  }

  function Parse(ret: Bytes): Parsed
  {
    match DecodeValue(ret, 0)
    case Ok(Arr(es), _) => (
      match (AsInt(Lookup(es, StrKey(CODE))), AsText(Lookup(es, StrKey(MSG))), AsText(Lookup(es, StrKey(DATA))))
      case (Value(c), Value(m), Value(d)) => Fields(c, m, d)
      case _ => NoCast)
    case Ok(_, _) => NotArray
    case _ => Unreadable
  }

  // ---------------------------------------------------------------- the bytes

  lemma PairsOfThree(a: Entry, b: Entry, c: Entry)
    ensures EncodePairs([a, b, c])
         == EncodeStr(KeyText(a.key)) + Encode(a.value) + EncodeStr(KeyText(b.key)) + Encode(b.value)
          + EncodeStr(KeyText(c.key)) + Encode(c.value)
  {
    hide Encode, EncodeStr, KeyText;
    assert [a, b, c][1..] == [b, c] && [b, c][1..] == [c] && [c][1..] == [];
    assert EncodePairs([]) == [];
    assert EncodePairs([c]) == EncodeStr(KeyText(c.key)) + Encode(c.value);
    assert EncodePairs([b, c]) == EncodeStr(KeyText(b.key)) + Encode(b.value) + EncodePairs([c]);
  }

  lemma KeyBytes()
    ensures EncodeStr(CODE) == [0xa4, 67, 111, 100, 101] && EncodeStr(MSG) == [0xa3, 77, 115, 103]
    ensures EncodeStr(DATA) == [0xa4, 68, 97, 116, 97]
  {
  }

  lemma RecordBytes(code: int, msg: Bytes, data: Bytes)
    ensures Build(code, msg, data) == [0x83] + EncodePairs(Record(code, msg, data).entries)
  {
    hide EncodePairs;
    var es := Record(code, msg, data).entries;
    assert es[0].key != IntKey(0);
    assert MapHeader(3) == [0x83];
  }

  lemma FieldBytes(code: int, msg: Bytes)
    ensures Encode(Int(code)) == EncodeInt(code) && Encode(Str(msg)) == EncodeStr(msg)
  {
    hide EncodeInt, EncodeStr;
  }

  /** A map of three pairs; the data goes out in a bin format, so a peer receives raw bytes and not text. */
  lemma BuildBytes(code: int, msg: Bytes, data: Bytes)
    requires InRange(code) && |msg| < TWO32 && |data| < TWO32
    ensures Build(code, msg, data)
         == [0x83] + ([0xa4, 67, 111, 100, 101] + EncodeInt(code) + [0xa3, 77, 115, 103] + EncodeStr(msg)
            + [0xa4, 68, 97, 116, 97] + Encode(Bin(data)))
    ensures var bin := Encode(Bin(data));
            |bin| > |data| && bin[0] in {0xc4, 0xc5, 0xc6} && bin[|bin| - |data|..] == data
  {
    var e0, e1, e2 := Entry(StrKey(CODE), Int(code)), Entry(StrKey(MSG), Str(msg)), Entry(StrKey(DATA), Bin(data));
    assert Record(code, msg, data).entries == [e0, e1, e2];
    assert KeyText(e0.key) == CODE && KeyText(e1.key) == MSG && KeyText(e2.key) == DATA;
    hide *;
    MsgpackFormats.BinBytes(data);
    PairsOfThree(e0, e1, e2);
    KeyBytes();
    RecordBytes(code, msg, data);
    FieldBytes(code, msg);
  }

  lemma ThreeFields(c: Value, m: Value, d: Value)
    requires Supported(c) && Supported(m) && Supported(d)
    ensures var v := Arr([Entry(StrKey(CODE), c), Entry(StrKey(MSG), m), Entry(StrKey(DATA), d)]);
            Supported(v) && Plain(v) == Arr([Entry(StrKey(CODE), Plain(c)), Entry(StrKey(MSG), Plain(m)),
                                             Entry(StrKey(DATA), Plain(d))])
  {
    var e0, e1, e2 := Entry(StrKey(CODE), c), Entry(StrKey(MSG), m), Entry(StrKey(DATA), d);
    var es := [e0, e1, e2];
    assert NormKey(CODE) == StrKey(CODE) && NormKey(MSG) == StrKey(MSG) && NormKey(DATA) == StrKey(DATA);
    assert es[1..] == [e1, e2] && [e1, e2][1..] == [e2] && [e2][1..] == [];
    assert SupportedEntries([]) && PlainEntries([]) == [];
    assert SupportedEntries([e2]) && PlainEntries([e2]) == [Entry(StrKey(DATA), Plain(d))];
    assert SupportedEntries([e1, e2]) && PlainEntries([e1, e2]) == [Entry(StrKey(MSG), Plain(m))] + PlainEntries([e2]);
    assert PlainEntries(es) == [Entry(StrKey(CODE), Plain(c))] + PlainEntries([e1, e2]);
    assert CODE[0] != MSG[0] && CODE[0] != DATA[0] && MSG[0] != DATA[0];
  }

  lemma LookupThree(c: Value, m: Value, d: Value)
    ensures var es := [Entry(StrKey(CODE), c), Entry(StrKey(MSG), m), Entry(StrKey(DATA), d)];
            Lookup(es, StrKey(CODE)) == c && Lookup(es, StrKey(MSG)) == m && Lookup(es, StrKey(DATA)) == d
  {
    var es := [Entry(StrKey(CODE), c), Entry(StrKey(MSG), m), Entry(StrKey(DATA), d)];
    assert CODE[0] != MSG[0] && CODE[0] != DATA[0] && MSG[0] != DATA[0];
    assert es[1..] == [es[1], es[2]] && [es[1], es[2]][1..] == [es[2]];
    assert Lookup([es[2]], StrKey(DATA)) == d;
    assert Lookup([es[1], es[2]], StrKey(DATA)) == d && Lookup([es[1], es[2]], StrKey(MSG)) == m;
  }

  /** The texts PHP casts to: nothing for null and false, "1" for true, the decimal digits of an integer. */
  ghost predicate CastsTo(v: Value, s: Bytes)
  {
    match v
    case Null => s == []
    case Bool(b) => s == if b then [49] else []
    case Int(n) => s == Text(n)
    case Str(t) => s == t
    case Bin(t) => s == t
    case Arr(_) => false
  }

  /** Whatever scalars a peer packs, message and data are read as PHP casts them; so is a code that is no text. */
  lemma ParseCasts(c: Value, m: Value, d: Value, msg: Bytes, data: Bytes)
    requires Supported(c) && Supported(m) && Supported(d) && CastsTo(m, msg) && CastsTo(d, data)
    requires c.Null? || c.Bool? || c.Int?
    ensures Parse(Encode(Arr([Entry(StrKey(CODE), c), Entry(StrKey(MSG), m), Entry(StrKey(DATA), d)])))
            == Fields(match c case Int(n) => n case Bool(b) => (if b then 1 else 0) case _ => 0, msg, data)
  {
    var v := Arr([Entry(StrKey(CODE), c), Entry(StrKey(MSG), m), Entry(StrKey(DATA), d)]);
    ThreeFields(c, m, d);
    LookupThree(Plain(c), Plain(m), Plain(d));
    hide DecodeValue, Encode, Supported, Lookup;
    RoundTrip(v, [], []);
    assert [] + Encode(v) + [] == Encode(v);
  }

  /** Packing a return structure and unpacking it gives back code, message and data. */
  lemma ParseBuild(code: int, msg: Bytes, data: Bytes)
    requires InRange(code) && |msg| < TWO32 && |data| < TWO32
    ensures Parse(Build(code, msg, data)) == Fields(code, msg, data)
  {
    hide Parse, Encode;
    ParseCasts(Int(code), Str(msg), Bin(data), msg, data);
  }

  lemma {:induction false} LookupMissing(es: seq<Entry>, k: Key)
    requires forall i :: 0 <= i < |es| ==> es[i].key != k
    ensures Lookup(PlainEntries(es), k) == Null
  {
    if es != [] { LookupMissing(es[1..], k); }
  }

  ghost predicate NoFields(es: seq<Entry>)
  {
    forall i :: 0 <= i < |es| ==> es[i].key !in {StrKey(CODE), StrKey(MSG), StrKey(DATA)}
  }

  /** Fields that are missing read as zero and as empty text; what is no array is rejected. */
  lemma ParseDefaults(v: Value)
    requires Supported(v)
    ensures v.Arr? && NoFields(v.entries) ==> Parse(Encode(v)) == Fields(0, [], [])
    ensures !v.Arr? <==> Parse(Encode(v)) == NotArray
  {
    hide DecodeValue, Encode, Supported;
    RoundTrip(v, [], []);
    assert [] + Encode(v) + [] == Encode(v);
    if v.Arr? && NoFields(v.entries) {
      LookupMissing(v.entries, StrKey(CODE));
      LookupMissing(v.entries, StrKey(MSG));
      LookupMissing(v.entries, StrKey(DATA));
    }
  }
}
