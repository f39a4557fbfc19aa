/**
 Whatever the decoder returns, on any bytes, is a value the encoder supports: decoding is stable under a
 round trip.
 */
module MsgpackStable {
  import opened Bytes
  import opened Decimal
  import opened Int64
  import opened Msgpack
  import opened MsgpackRoundTrip

  function Pow10(k: nat): nat { if k == 0 then 1 else 10 * Pow10(k - 1) }

  lemma {:induction false} DigitsLength(n: nat, k: nat)
    requires k > 0 && n < Pow10(k)
    ensures |Digits(n)| <= k
  {
    if n >= 10 {
      assert k > 1;
      DigitsLength(n / 10, k - 1);
    }
  }

  lemma TextLength(n: int)
    requires InRange(n)
    ensures |Text(n)| <= 20
  {
    assert Pow10(5) == 100000;
    assert Pow10(10) == 10000000000;
    assert Pow10(15) == 1000000000000000;
    assert Pow10(19) == 10000000000000000000;
    DigitsLength(if n < 0 then 0 - n else n, 19);
  }

  // ---------------------------------------------------------------- fine values

  /** Supported, and free of `Bin`. */
  predicate Fine(v: Value) { Supported(v) && Plain(v) == v }

  predicate FineKey(k: Key) { ValidKey(k) && |KeyText(k)| < TWO32 }

  predicate FineEntry(e: Entry) { FineKey(e.key) && Fine(e.value) }

  predicate FineEntries(es: seq<Entry>) { forall i :: 0 <= i < |es| ==> FineEntry(es[i]) }

  lemma {:induction false} EntriesAreFine(es: seq<Entry>)
    requires FineEntries(es)
    ensures SupportedEntries(es) && PlainEntries(es) == es
  {
    if es != [] {
      EntryIsFine(es);
      hide FineEntries, FineEntry;
      EntriesAreFine(es[1..]);
      assert es == [es[0]] + es[1..];
      hide Supported, Plain, ValidKey, KeyText;
    }
  }

  lemma EntryIsFine(es: seq<Entry>)
    requires FineEntries(es) && es != []
    ensures FineEntries(es[1..])
    ensures var e := es[0];
            ValidKey(e.key) && |KeyText(e.key)| < TWO32 && Supported(e.value) && Plain(e.value) == e.value
  {
    hide Supported, Plain, ValidKey, KeyText;
    var rest := es[1..];
    assert FineEntry(es[0]);
    assert forall i :: 0 <= i < |rest| ==> rest[i] == es[i + 1];
  }

  lemma ArrIsFine(es: seq<Entry>)
    requires FineEntries(es) && DistinctKeys(es) && |es| < TWO32
    ensures Fine(Arr(es))
  {
    hide SupportedEntries, PlainEntries;
    EntriesAreFine(es);
  }

  lemma IntKeyFine(n: int)
    requires InRange(n)
    ensures FineKey(IntKey(n))
  {
    TextLength(n);
  }

  lemma KeyIsFine(v: Value)
    requires Fine(v) && KeyOf(v).SomeKey?
    ensures FineKey(KeyOf(v).key)
  {
    match v
    case Null => assert NormKey([]) == StrKey([]);
    case Bool(b) => IntKeyFine(if b then 1 else 0);
    case Int(n) => IntKeyFine(n);
    case Str(s) =>
      if Canonical(s) && InRange(CanonicalValue(s)) { IntKeyFine(CanonicalValue(s)); }
  }

  predicate HasKey(es: seq<Entry>, k: Key) { exists j :: 0 <= j < |es| && es[j].key == k }

  /** The keys after putting a pair are the old ones and its own, and there is one entry more at most. */
  lemma {:induction false} PutKeys(es: seq<Entry>, k: Key, v: Value)
    ensures var r := Put(es, k, v);
            |r| <= |es| + 1 && forall i :: 0 <= i < |r| ==> r[i].key == k || HasKey(es, r[i].key)
  {
    if es != [] && es[0].key != k {
      var rest, r := es[1..], Put(es, k, v);
      PutKeys(rest, k, v);
      assert r == [es[0]] + Put(rest, k, v);
      hide Put;
      forall i | 0 <= i < |r| ensures r[i].key == k || HasKey(es, r[i].key) {
        if i > 0 && r[i].key != k { KeyInRest(es, r[i].key); } else if i == 0 { assert es[0].key == r[0].key; }
      }
    } else if es != [] {
      var r := Put(es, k, v);
      assert forall i :: 0 < i < |r| ==> r[i] == es[i];
    }
  }

  lemma KeyInRest(es: seq<Entry>, k: Key)
    requires es != [] && HasKey(es[1..], k)
    ensures HasKey(es, k)
  {
    var rest := es[1..];
    var j :| 0 <= j < |rest| && rest[j].key == k;
    assert es[j + 1].key == k;
  }

  lemma RestFine(es: seq<Entry>)
    requires es != []
    ensures DistinctKeys(es) ==> DistinctKeys(es[1..]) && !HasKey(es[1..], es[0].key)
    ensures FineEntries(es) ==> FineEntries(es[1..]) && FineEntry(es[0])
  {
    hide FineEntry;
    var rest := es[1..];
    assert forall i :: 0 <= i < |rest| ==> rest[i] == es[i + 1];
  }

  lemma PutFront(es: seq<Entry>, k: Key, v: Value)
    ensures Put(es, k, v) == if es == [] then [Entry(k, v)] else if es[0].key == k then [Entry(k, v)] + es[1..]
                             else [es[0]] + Put(es[1..], k, v)
  {
  }

  lemma ConsDistinct(e: Entry, p: seq<Entry>)
    requires DistinctKeys(p) && !HasKey(p, e.key)
    ensures DistinctKeys([e] + p)
  {
    var r := [e] + p;
    forall i, j | 0 <= i < j < |r| ensures r[i].key != r[j].key {
      if i == 0 { assert p[j - 1].key != e.key; }
    }
  }

  lemma {:induction false} PutDistinct(es: seq<Entry>, k: Key, v: Value)
    requires DistinctKeys(es)
    ensures DistinctKeys(Put(es, k, v))
  {
    PutFront(es, k, v);
    hide Put;
    if es != [] {
      var rest := es[1..];
      RestFine(es);
      hide DistinctKeys;
      if es[0].key == k {
        ConsDistinct(Entry(k, v), rest);
      } else {
        PutDistinct(rest, k, v);
        PutKeys(rest, k, v);
        ConsDistinct(es[0], Put(rest, k, v));
      }
    }
  }

  lemma {:induction false} PutEntriesFine(es: seq<Entry>, k: Key, v: Value)
    requires FineEntries(es) && FineKey(k) && Fine(v)
    ensures FineEntries(Put(es, k, v))
  {
    PutFront(es, k, v);
    hide Put, FineKey, Fine;
    if es != [] {
      RestFine(es);
      if es[0].key != k { PutEntriesFine(es[1..], k, v); }
    }
  }

  /** Putting a pair keeps keys distinct and entries fine, and adds one entry at most. */
  lemma PutFine(es: seq<Entry>, k: Key, v: Value)
    requires FineEntries(es) && DistinctKeys(es) && FineKey(k) && Fine(v)
    ensures var r := Put(es, k, v); FineEntries(r) && DistinctKeys(r) && |r| <= |es| + 1
  {
    hide *;
    PutEntriesFine(es, k, v);
    PutDistinct(es, k, v);
    PutKeys(es, k, v);
  }

  // ---------------------------------------------------------------- the decoder

  lemma FieldsFine(data: Bytes, off: nat, k: nat)
    requires k in {1, 2, 4, 8}
    ensures var r := ReadSigned(data, off, k); r.Ok? ==> Fine(r.value)
    ensures var r := ReadUnsigned(data, off, k); k < 8 && r.Ok? ==> Fine(r.value)
    ensures var r := ReadStrOfWidth(data, off, k); k < 8 && r.Ok? ==> Fine(r.value)
  {
    hide Words, FromBE;
    WordSizes();
  }

  /** What the decoder returns on any bytes at any offset is fine. */
  lemma {:induction false} DecodedIsFine(data: Bytes, off: nat)
    ensures var r := DecodeValue(data, off); r.Ok? ==> Fine(r.value)
    decreases Left(data, off), 0
  {
    hide Fine, DecodePairs, DecodeElems, DecodeCounted;
    if off < |data| {
      var b: int, o := data[off], off + 1;
      if 0x80 <= b <= 0x8f { PairsFine(data, o, b - 0x80, []); }
      else if 0x90 <= b <= 0x9f { ElemsFine(data, o, b - 0x90, []); }
      else if 0xdc <= b <= 0xdf { CountedFine(data, o, if b == 0xdc || b == 0xde then 2 else 4, b >= 0xde); }
      else { ScalarFine(data, off); }
    } else {
      NullFine();
    }
  }

  lemma NullFine()
    ensures Fine(Null)
  {
  }

  lemma ScalarFine(data: Bytes, off: nat)
    requires off < |data| && var b: int := data[off]; b <= 0x7f || b >= 0xe0 || 0xa0 <= b <= 0xdb
    ensures var r := DecodeValue(data, off); r.Ok? ==> Fine(r.value)
  {
    if data[off] <= 0x7f || data[off] >= 0xe0 || data[off] < 0xc4 {
      OneByteFine(data, off);
    } else {
      FieldFine(data, off);
    }
  }

  lemma FieldFine(data: Bytes, off: nat)
    requires off < |data| && 0xc4 <= data[off] <= 0xdb
    ensures var r := DecodeValue(data, off); r.Ok? ==> Fine(r.value)
  {
    hide DecodePairs, DecodeElems, DecodeCounted, ReadSigned, ReadUnsigned, ReadStrOfWidth;
    NullFine();
    hide Fine;
    var o := off + 1;
    FieldsFine(data, o, 1);
    FieldsFine(data, o, 2);
    FieldsFine(data, o, 4);
    FieldsFine(data, o, 8);
  }

  lemma OneByteFine(data: Bytes, off: nat)
    requires off < |data| && var b: int := data[off]; b <= 0x7f || b >= 0xe0 || 0xa0 <= b < 0xc4
    ensures var r := DecodeValue(data, off); r.Ok? ==> Fine(r.value)
  {
    hide DecodePairs, DecodeElems, DecodeCounted, ReadSigned, ReadUnsigned, ReadStrOfWidth;
  }

  lemma {:induction false} CountedFine(data: Bytes, off: nat, k: nat, isMap: bool)
    requires k == 2 || k == 4
    ensures var r := DecodeCounted(data, off, k, isMap); r.Ok? ==> Fine(r.value)
    decreases Left(data, off), 0
  {
    hide Words, FromBE, DecodePairs, DecodeElems, Fine;
    WordSizes();
    var f := ReadField(data, off, k);
    if f.Field? {
      if isMap { PairsFine(data, off + k, f.n, []); } else { ElemsFine(data, off + k, f.n, []); }
    }
  }

  lemma {:induction false} ElemsFine(data: Bytes, off: nat, n: nat, acc: seq<Entry>)
    requires FineEntries(acc) && ListFrom(acc, 0) && |acc| + n < TWO32
    ensures var r := DecodeElems(data, off, n, acc); r.Ok? ==> Fine(r.value)
    decreases Left(data, off), n
  {
    hide Fine, FineKey, DecodeValue;
    if n == 0 {
      ArrIsFine(acc);
    } else {
      DecodedIsFine(data, off);
      var r := DecodeValue(data, off);
      if r.Ok? {
        IntKeyFine(|acc|);
        ElemsFine(data, r.next, n - 1, acc + [Entry(IntKey(|acc|), r.value)]);
      }
    }
  }

  lemma {:induction false} PairsFine(data: Bytes, off: nat, n: nat, acc: seq<Entry>)
    requires FineEntries(acc) && DistinctKeys(acc) && |acc| + n < TWO32
    ensures var r := DecodePairs(data, off, n, acc); r.Ok? ==> Fine(r.value)
    decreases Left(data, off), n
  {
    hide Fine, FineKey, DecodeValue, FineEntries, DistinctKeys, KeyOf, Put;
    if n == 0 {
      ArrIsFine(acc);
    } else {
      DecodedIsFine(data, off);
      var k := DecodeValue(data, off);
      if k.Ok? {
        DecodedIsFine(data, k.next);
        var v := DecodeValue(data, k.next);
        if v.Ok? && KeyOf(k.value).SomeKey? {
          KeyIsFine(k.value);
          PutFine(acc, KeyOf(k.value).key, v.value);
          PairsFine(data, v.next, n - 1, Put(acc, KeyOf(k.value).key, v.value));
        }
      }
    }
  }

  /** Decoding, encoding and decoding again gives the same value, for every input that decodes at all. */
  lemma DecodeStable(data: Bytes, off: nat, pre: Bytes, rest: Bytes)
    ensures var r := DecodeValue(data, off);
            r.Ok? ==> DecodeValue(pre + Encode(r.value) + rest, |pre|) == Ok(r.value, |pre| + |Encode(r.value)|)
  {
    hide DecodeValue, Encode, Supported;
    DecodedIsFine(data, off);
    var r := DecodeValue(data, off);
    if r.Ok? { RoundTrip(r.value, pre, rest); }
  }
}
