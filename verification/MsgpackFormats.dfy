/**
 The formats of the MessagePack specification (section "Formats"), as syntax trees that say which format and
 which width each value is written in. The encoder writes every value in its own format family and in the
 shortest width; the decoder reads every format it supports, in any width.
 */
module MsgpackFormats {
  import opened Bytes
  import opened Int64
  import opened Msgpack
  import opened MsgpackRoundTrip

  /** `k` is the width of the number, length or count in bytes; 0 when the tag itself holds it. */
  datatype Form =
    | NilForm
    | BoolForm(b: bool)
    | FixIntForm(n: int)
    | UIntForm(k: nat, n: int)
    | IntForm(k: nat, n: int)
    | StrForm(k: nat, s: Bytes)
    | BinForm(k: nat, d: Bytes)
    | ArrayForm(k: nat, elems: seq<Form>)
    | MapForm(k: nat, pairs: seq<Pair>)

  datatype Pair = Pair(key: Form, value: Form)

  // ---------------------------------------------------------------- the bytes of a form

  /** A count of elements or pairs fits its field. */
  predicate CountFits(k: nat, n: nat) { if k == 0 then n <= 15 else (k == 2 || k == 4) && n < Words(k) }

  predicate Fits(f: Form)
    decreases f, 1
  {
    match f
    case NilForm => true
    case BoolForm(_) => true
    case FixIntForm(n) => -32 <= n <= 0x7f
    case UIntForm(k, n) => (k == 1 || k == 2 || k == 4 || k == 8) && 0 <= n < Words(k)
    case IntForm(k, n) => (k == 1 || k == 2 || k == 4 || k == 8) && 0 <= Words(k) + 2 * n && 2 * n < Words(k)
    case StrForm(k, s) => if k == 0 then |s| <= 31 else (k == 1 || k == 2 || k == 4) && |s| < Words(k)
    case BinForm(k, d) => (k == 1 || k == 2 || k == 4) && |d| < Words(k)
    case ArrayForm(k, fs) => CountFits(k, |fs|) && AllFit(fs)
    case MapForm(k, ps) => CountFits(k, |ps|) && PairsFit(ps)
  }

  predicate AllFit(fs: seq<Form>)
    decreases fs, 0
  {
    fs == [] || (Fits(fs[0]) && AllFit(fs[1..]))
  }

  predicate PairsFit(ps: seq<Pair>)
    decreases ps, 0
  {
    ps == [] ||
    assert ps[0].key < ps[0] && ps[0].value < ps[0];
    (Fits(ps[0].key) && Fits(ps[0].value) && PairsFit(ps[1..]))
  }

  function UIntTag(k: nat): Byte { if k == 1 then 0xcc else if k == 2 then 0xcd else if k == 4 then 0xce else 0xcf }

  function IntTag(k: nat): Byte { if k == 1 then 0xd0 else if k == 2 then 0xd1 else if k == 4 then 0xd2 else 0xd3 }

  function StrHead(k: nat, len: nat): Bytes
    requires k == 0 ==> len <= 31
  {
    if k == 0 then [0xa0 + len] else [if k == 1 then 0xd9 else if k == 2 then 0xda else 0xdb] + BE(len, k)
  }

  function BinHead(k: nat, len: nat): Bytes
  {
    [if k == 1 then 0xc4 else if k == 2 then 0xc5 else 0xc6] + BE(len, k)
  }

  function ArrayHead(k: nat, n: nat): Bytes
    requires k == 0 ==> n <= 15
  {
    if k == 0 then [0x90 + n] else [if k == 2 then 0xdc else 0xdd] + BE(n, k)
  }

  function MapHead(k: nat, n: nat): Bytes
    requires k == 0 ==> n <= 15
  {
    if k == 0 then [0x80 + n] else [if k == 2 then 0xde else 0xdf] + BE(n, k)
  }

  function Write(f: Form): Bytes
    requires Fits(f)
    decreases f, 1
  {
    match f
    case NilForm => [0xc0]
    case BoolForm(b) => [if b then 0xc3 else 0xc2]
    case FixIntForm(n) => [if n < 0 then n + 0x100 else n]
    case UIntForm(k, n) => [UIntTag(k)] + BE(n, k)
    case IntForm(k, n) => [IntTag(k)] + BE(Complement(n, k), k)
    case StrForm(k, s) => StrHead(k, |s|) + s
    case BinForm(k, d) => BinHead(k, |d|) + d
    case ArrayForm(k, fs) => ArrayHead(k, |fs|) + WriteAll(fs)
    case MapForm(k, ps) => MapHead(k, |ps|) + WritePairs(ps)
  }

  function WriteAll(fs: seq<Form>): Bytes
    requires AllFit(fs)
    decreases fs, 0
  {
    if fs == [] then [] else Write(fs[0]) + WriteAll(fs[1..])
  }

  function WritePairs(ps: seq<Pair>): Bytes
    requires PairsFit(ps)
    decreases ps, 0
  {
    if ps == [] then []
    else
      assert ps[0].key < ps[0] && ps[0].value < ps[0];
      Write(ps[0].key) + Write(ps[0].value) + WritePairs(ps[1..])
  }

  // ---------------------------------------------------------------- which forms stand for a value

  /** The form spells the value in the value's own format family. */
  ghost predicate Spells(f: Form, v: Value)
    decreases f, 1
  {
    match f
    case NilForm => v == Null
    case BoolForm(b) => v == Bool(b)
    case FixIntForm(n) => v == Int(n)
    case UIntForm(_, n) => v == Int(n)
    case IntForm(_, n) => v == Int(n)
    case StrForm(_, s) => v == Str(s)
    case BinForm(_, d) => v == Bin(d)
    case ArrayForm(_, fs) => v.Arr? && IsListing(v.entries) && SpellsAll(fs, v.entries)
    case MapForm(_, ps) => v.Arr? && !IsListing(v.entries) && SpellsPairs(ps, v.entries)
  }

  /** The keys are 0, 1, 2, and so on, in order. */
  ghost predicate IsListing(es: seq<Entry>) { forall i :: 0 <= i < |es| ==> es[i].key == IntKey(i) }

  ghost predicate SpellsAll(fs: seq<Form>, es: seq<Entry>)
    decreases fs, 0
  {
    |fs| == |es| && (fs != [] ==> Spells(fs[0], es[0].value) && SpellsAll(fs[1..], es[1..]))
  }

  ghost predicate SpellsPairs(ps: seq<Pair>, es: seq<Entry>)
    decreases ps, 0
  {
    && |ps| == |es|
    && (ps != [] ==>
          assert ps[0].key < ps[0] && ps[0].value < ps[0];
          && ps[0].key.StrForm? && ps[0].key.s == KeyText(es[0].key) && Spells(ps[0].value, es[0].value)
          && SpellsPairs(ps[1..], es[1..]))
  }

  // ---------------------------------------------------------------- what the encoder chooses

  function IntChoice(n: int): Form
  {
    if -32 <= n <= 0x7f then FixIntForm(n)
    else if 0 <= n <= 0xffff_ffff then UIntForm(if n <= 0xff then 1 else if n <= 0xffff then 2 else 4, n)
    else IntForm(if -0x80 <= n <= 0x7f then 1 else if -0x8000 <= n <= 0x7fff then 2
                 else if -0x8000_0000 <= n <= 0x7fff_ffff then 4 else 8, n)
  }

  function StrWidth(len: nat): nat
  {
    if len <= 31 then 0 else if len <= 0xff then 1 else if len <= 0xffff then 2 else 4
  }

  function BinWidth(len: nat): nat { if len <= 0xff then 1 else if len <= 0xffff then 2 else 4 }

  function CountWidth(n: nat): nat { if n <= 15 then 0 else if n <= 0xffff then 2 else 4 }

  ghost function Choice(v: Value): Form
    decreases v, 1
  {
    match v
    case Null => NilForm
    case Bool(b) => BoolForm(b)
    case Int(n) => IntChoice(n)
    case Str(s) => StrForm(StrWidth(|s|), s)
    case Bin(d) => BinForm(BinWidth(|d|), d)
    case Arr(es) => if IsListing(es) then ArrayForm(CountWidth(|es|), Choices(es))
                    else MapForm(CountWidth(|es|), PairChoices(es))
  }

  ghost function Choices(es: seq<Entry>): (r: seq<Form>)
    ensures |r| == |es|
    decreases es, 0
  {
    if es == [] then []
    else
      assert es[0].value < es[0];
      [Choice(es[0].value)] + Choices(es[1..])
  }

  ghost function PairChoices(es: seq<Entry>): (r: seq<Pair>)
    ensures |r| == |es|
    decreases es, 0
  {
    if es == [] then []
    else
      assert es[0].value < es[0];
      var k := KeyText(es[0].key);
      [Pair(StrForm(StrWidth(|k|), k), Choice(es[0].value))] + PairChoices(es[1..])
  }

  lemma IntConforms(n: int)
    requires InRange(n)
    ensures Fits(IntChoice(n)) && Write(IntChoice(n)) == EncodeInt(n)
  {
    WordSizes();
    hide BE, Words;
  }

  lemma StrConforms(s: Bytes)
    requires |s| < TWO32
    ensures var f := StrForm(StrWidth(|s|), s); Fits(f) && Write(f) == EncodeStr(s)
  {
    WordSizes();
    hide BE, Words;
  }

  lemma BinConforms(d: Bytes)
    requires |d| < TWO32
    ensures var f := BinForm(BinWidth(|d|), d); Fits(f) && Write(f) == Encode(Bin(d))
  {
    WordSizes();
    hide BE, Words;
  }

  lemma CountConforms(n: nat)
    requires n < TWO32
    ensures var k := CountWidth(n);
            && CountFits(k, n) && (k == 0 ==> n <= 15)
            && ArrayHead(k, n) == ArrayHeader(n) && MapHead(k, n) == MapHeader(n)
  {
    WordSizes();
    hide BE, Words;
  }

  lemma ScalarConforms(v: Value)
    requires Supported(v) && !v.Arr?
    ensures Spells(Choice(v), v) && Fits(Choice(v)) && Write(Choice(v)) == Encode(v)
  {
    match v
    case Int(n) => IntConforms(n);
    case Str(s) => StrConforms(s);
    case Bin(d) => BinConforms(d);
    case _ =>
  }

  lemma EncodeByKeys(es: seq<Entry>)
    ensures Encode(Arr(es)) == if IsListing(es) then ArrayHeader(|es|) + EncodeElems(es)
                               else MapHeader(|es|) + EncodePairs(es)
  {
    hide EncodeElems, EncodePairs, ArrayHeader, MapHeader;
  }

  lemma ArrayFormIs(k: nat, fs: seq<Form>, es: seq<Entry>)
    requires CountFits(k, |fs|) && AllFit(fs)
    ensures Fits(ArrayForm(k, fs)) && Write(ArrayForm(k, fs)) == ArrayHead(k, |fs|) + WriteAll(fs)
    ensures Spells(ArrayForm(k, fs), Arr(es)) <==> IsListing(es) && SpellsAll(fs, es)
  {
    hide AllFit, WriteAll, SpellsAll, ArrayHead, Words;
  }

  lemma MapFormIs(k: nat, ps: seq<Pair>, es: seq<Entry>)
    requires CountFits(k, |ps|) && PairsFit(ps)
    ensures Fits(MapForm(k, ps)) && Write(MapForm(k, ps)) == MapHead(k, |ps|) + WritePairs(ps)
    ensures Spells(MapForm(k, ps), Arr(es)) <==> !IsListing(es) && SpellsPairs(ps, es)
  {
    hide PairsFit, WritePairs, SpellsPairs, MapHead, Words;
  }

  lemma ListConforms(es: seq<Entry>, fs: seq<Form>)
    requires |es| < TWO32 && IsListing(es) && |fs| == |es|
    requires SpellsAll(fs, es) && AllFit(fs) && WriteAll(fs) == EncodeElems(es)
    ensures var f := ArrayForm(CountWidth(|es|), fs); Spells(f, Arr(es)) && Fits(f) && Write(f) == Encode(Arr(es))
  {
    hide *;
    CountConforms(|es|);
    EncodeByKeys(es);
    ArrayFormIs(CountWidth(|es|), fs, es);
  }

  lemma MapConforms(es: seq<Entry>, ps: seq<Pair>)
    requires |es| < TWO32 && !IsListing(es) && |ps| == |es|
    requires SpellsPairs(ps, es) && PairsFit(ps) && WritePairs(ps) == EncodePairs(es)
    ensures var f := MapForm(CountWidth(|es|), ps); Spells(f, Arr(es)) && Fits(f) && Write(f) == Encode(Arr(es))
  {
    hide *;
    CountConforms(|es|);
    EncodeByKeys(es);
    MapFormIs(CountWidth(|es|), ps, es);
  }

  /**
   What the encoder writes is one of the specification's forms of the value, in the value's own family:
   nil, boolean, integer, string, binary, array or map.
   */
  lemma {:induction false} EncodeConforms(v: Value)
    requires Supported(v)
    ensures Spells(Choice(v), v) && Fits(Choice(v)) && Write(Choice(v)) == Encode(v)
    decreases v, 1
  {
    if !v.Arr? {
      ScalarConforms(v);
    } else {
      hide Encode, Fits, Write, Spells, Choices, PairChoices, SupportedEntries, DistinctKeys, CountWidth;
      if IsListing(v.entries) {
        ElemsConform(v.entries);
        ListConforms(v.entries, Choices(v.entries));
      } else {
        PairsConform(v.entries);
        MapConforms(v.entries, PairChoices(v.entries));
      }
    }
  }

  lemma {:induction false} ElemsConform(es: seq<Entry>)
    requires SupportedEntries(es)
    ensures var fs := Choices(es); SpellsAll(fs, es) && AllFit(fs) && WriteAll(fs) == EncodeElems(es)
    decreases es, 0
  {
    hide Choice, Encode, Supported, Fits, Write, Spells, KeyText, ValidKey;
    if es != [] {
      assert es[0].value < es[0];
      EncodeConforms(es[0].value);
      ElemsConform(es[1..]);
      assert Choices(es)[1..] == Choices(es[1..]);
    }
  }

  lemma {:induction false} PairsConform(es: seq<Entry>)
    requires SupportedEntries(es)
    ensures var ps := PairChoices(es); SpellsPairs(ps, es) && PairsFit(ps) && WritePairs(ps) == EncodePairs(es)
    decreases es, 0
  {
    hide Choice, Encode, EncodeStr, Supported, Fits, Write, Spells, KeyText, ValidKey, StrWidth;
    if es != [] {
      assert es[0].value < es[0];
      StrConforms(KeyText(es[0].key));
      EncodeConforms(es[0].value);
      PairsConform(es[1..]);
      assert PairChoices(es)[1..] == PairChoices(es[1..]);
    }
  }

  // ---------------------------------------------------------------- families by the first byte

  lemma FamilyOfScalar(v: Value)
    requires Supported(v) && !v.Arr?
    ensures |Encode(v)| > 0 && FirstByteFits(v, Encode(v)[0])
  {
    hide BE;
  }

  lemma FamilyOfArray(v: Value)
    requires Supported(v) && v.Arr?
    ensures |Encode(v)| > 0 && FirstByteFits(v, Encode(v)[0])
  {
    hide BE, EncodeElems, EncodePairs, SupportedEntries;
  }

  /** The first-byte table of section "Formats". */
  ghost predicate FirstByteFits(v: Value, b: Byte)
  {
    && (b == 0xc0 <==> v.Null?)
    && (b == 0xc2 <==> v == Bool(false)) && (b == 0xc3 <==> v == Bool(true))
    && (b in {0xc4, 0xc5, 0xc6} <==> v.Bin?)
    && (b <= 0x7f || b >= 0xe0 || 0xcc <= b <= 0xd3 <==> v.Int?)
    && (b == 0xd3 <==> v.Int? && !(-0x8000_0000 <= v.n <= 0xffff_ffff)) && b != 0xcf
    && (0xa0 <= b <= 0xbf || 0xd9 <= b <= 0xdb <==> v.Str?)
    && (0x90 <= b <= 0x9f || 0xdc <= b <= 0xdd <==> v.Arr? && IsListing(v.entries))
    && (0x80 <= b <= 0x8f || 0xde <= b <= 0xdf <==> v.Arr? && !IsListing(v.entries))
  }

  /** Every value starts with a byte of its own family, and of no other. */
  lemma OwnFamily(v: Value)
    requires Supported(v)
    ensures |Encode(v)| > 0 && FirstByteFits(v, Encode(v)[0])
  {
    hide Encode, Supported, FirstByteFits;
    if v.Arr? { FamilyOfArray(v); } else { FamilyOfScalar(v); }
  }

  /** Binary data is written as it is, behind a bin tag and its length. */
  lemma BinBytes(d: Bytes)
    requires |d| < TWO32
    ensures var e, k := Encode(Bin(d)), if |d| < 0x100 then 1 else if |d| < 0x1_0000 then 2 else 4;
            && |e| == 1 + k + |d| && e[0] == (if k == 1 then 0xc4 else if k == 2 then 0xc5 else 0xc6)
            && FromBE(e[1..1 + k]) == |d| && e[1 + k..] == d
  {
    var k := if |d| < 0x100 then 1 else if |d| < 0x1_0000 then 2 else 4;
    WordSizes();
    ReadBack(|d|, k);
    hide BE, FromBE, Words;
    assert Encode(Bin(d))[1..1 + k] == BE(|d|, k);
  }

  // ---------------------------------------------------------------- the shortest form

  lemma ShortestScalar(f: Form, v: Value)
    requires Fits(f) && Spells(f, v) && !v.Arr?
    ensures |Encode(v)| <= |Write(f)|
  {
    WordSizes();
    hide BE, Words;
  }

  lemma ShortestHead(f: Form)
    requires Fits(f)
    ensures f.ArrayForm? ==> |ArrayHeader(|f.elems|)| <= |ArrayHead(f.k, |f.elems|)|
    ensures f.MapForm? ==> |MapHeader(|f.pairs|)| <= |MapHead(f.k, |f.pairs|)|
  {
    WordSizes();
    hide BE, Words, AllFit, PairsFit;
  }

  /** No form of a value, in its own family at every level, is shorter than what the encoder writes. */
  lemma {:induction false} Shortest(f: Form, v: Value)
    requires Fits(f) && Spells(f, v)
    ensures |Encode(v)| <= |Write(f)|
    decreases f, 1
  {
    if !v.Arr? {
      ShortestScalar(f, v);
    } else {
      ShortestHead(f);
      hide ArrayHeader, MapHeader, ArrayHead, MapHead, EncodeElems, EncodePairs, WriteAll, WritePairs, Words;
      if f.ArrayForm? { ShortestElems(f.elems, v.entries); } else { ShortestPairs(f.pairs, v.entries); }
      CountOf(f, v);
    }
  }

  lemma CountOf(f: Form, v: Value)
    requires Fits(f) && Spells(f, v) && v.Arr?
    ensures if f.ArrayForm? then |f.elems| == |v.entries| && ListFrom(v.entries, 0)
            else f.MapForm? && |f.pairs| == |v.entries| && !ListFrom(v.entries, 0)
  {
  }

  lemma {:induction false} ShortestElems(fs: seq<Form>, es: seq<Entry>)
    requires AllFit(fs) && SpellsAll(fs, es)
    ensures |EncodeElems(es)| <= |WriteAll(fs)|
    decreases fs, 0
  {
    hide Encode, Write, Fits, Spells;
    if fs != [] {
      Shortest(fs[0], es[0].value);
      ShortestElems(fs[1..], es[1..]);
    }
  }

  lemma {:induction false} ShortestPairs(ps: seq<Pair>, es: seq<Entry>)
    requires PairsFit(ps) && SpellsPairs(ps, es)
    ensures |EncodePairs(es)| <= |WritePairs(ps)|
    decreases ps, 0
  {
    hide Encode, Write, Fits, Spells, KeyText, EncodeStr;
    if ps != [] {
      assert ps[0].key < ps[0] && ps[0].value < ps[0];
      ShortestKey(ps[0].key, KeyText(es[0].key));
      Shortest(ps[0].value, es[0].value);
      ShortestPairs(ps[1..], es[1..]);
    }
  }

  lemma ShortestKey(f: Form, s: Bytes)
    requires Fits(f) && f.StrForm? && f.s == s
    ensures |EncodeStr(s)| <= |Write(f)|
  {
    ShortestScalar(f, Str(s));
  }

  // ---------------------------------------------------------------- what the decoder reads

  /** PHP cannot use an array as a key. */
  predicate Readable(f: Form)
    decreases f, 1
  {
    match f
    case ArrayForm(_, fs) => AllReadable(fs)
    case MapForm(_, ps) => PairsReadable(ps)
    case _ => true
  }

  predicate AllReadable(fs: seq<Form>)
    decreases fs, 0
  {
    fs == [] || (Readable(fs[0]) && AllReadable(fs[1..]))
  }

  predicate PairsReadable(ps: seq<Pair>)
    decreases ps, 0
  {
    ps == [] ||
    assert ps[0].key < ps[0] && ps[0].value < ps[0];
    (!ps[0].key.ArrayForm? && !ps[0].key.MapForm? && Readable(ps[0].value) && PairsReadable(ps[1..]))
  }

  /** The PHP value of a form: integers are signed, binary data is a string. */
  function Meaning(f: Form): Value
    decreases f, 1
  {
    match f
    case NilForm => Null
    case BoolForm(b) => Bool(b)
    case FixIntForm(n) => Int(n)
    case UIntForm(_, n) => Int(if n >= TWO63 then n - TWO64 else n)
    case IntForm(_, n) => Int(n)
    case StrForm(_, s) => Str(s)
    case BinForm(_, d) => Str(d)
    case ArrayForm(_, fs) => Arr(Elems(fs, []))
    case MapForm(_, ps) => Arr(Table(ps, []))
  }

  /** The elements, numbered on from `acc`. */
  function Elems(fs: seq<Form>, acc: seq<Entry>): seq<Entry>
    decreases fs, 0
  {
    if fs == [] then acc else Elems(fs[1..], acc + [Entry(IntKey(|acc|), Meaning(fs[0]))])
  }

  /** The pairs put into `acc` one after the other; a key that comes again gets the later value. */
  function Table(ps: seq<Pair>, acc: seq<Entry>): seq<Entry>
    decreases ps, 0
  {
    if ps == [] then acc
    else
      assert ps[0].key < ps[0] && ps[0].value < ps[0];
      match KeyOf(Meaning(ps[0].key))
      case SomeKey(k) => Table(ps[1..], Put(acc, k, Meaning(ps[0].value)))
      case NoKey => Table(ps[1..], acc)
  }

  /** A 64-bit unsigned integer is read as PHP's signed one. */
  lemma Uint64At(data: Bytes, off: nat, n: nat)
    requires n < TWO64 && At(data, off, [0xcf] + BE(n, 8))
    ensures DecodeValue(data, off) == Ok(Int(if n >= TWO63 then n - TWO64 else n), off + 9)
  {
    WordSizes();
    TagFieldAt(data, off, 0xcf, n, 8);
    hide BE, FromBE, Words, At, ReadField;
  }

  /** So it is read as itself if and only if it is below 2^63. */
  lemma Uint64Iff(data: Bytes, off: nat, n: nat)
    requires n < TWO64 && At(data, off, [0xcf] + BE(n, 8))
    ensures DecodeValue(data, off) == Ok(Int(n), off + 9) <==> n < TWO63
  {
    hide BE, DecodeValue, At;
    Uint64At(data, off, n);
  }

  lemma NumberReads(f: Form, data: Bytes, off: nat)
    requires Fits(f) && (f.FixIntForm? || f.UIntForm? || f.IntForm?) && At(data, off, Write(f))
    ensures DecodeValue(data, off) == Ok(Meaning(f), off + |Write(f)|)
  {
    WordSizes();
    hide BE, Words, DecodeValue, At;
    match f
    case FixIntForm(n) => OneByteIntAt(data, off, n);
    case UIntForm(k, n) => if k == 8 { Uint64At(data, off, n); } else { UnsignedAt(data, off, n, k); }
    case IntForm(k, n) => SignedAt(data, off, n, k);
  }

  lemma TextReads(f: Form, data: Bytes, off: nat)
    requires Fits(f) && (f.StrForm? || f.BinForm?) && At(data, off, Write(f))
    ensures DecodeValue(data, off) == Ok(Meaning(f), off + |Write(f)|)
  {
    hide BE, Words, DecodeValue, At, ReadStr;
    match f
    case StrForm(k, s) =>
      AtSplit(data, off, StrHead(k, |s|), s);
      HeadReads(k, |s|, data, off);
      StrAt(data, off + |StrHead(k, |s|)|, s);
    case BinForm(k, d) =>
      AtSplit(data, off, BinHead(k, |d|), d);
      LengthAt(data, off, BinHead(k, |d|)[0], |d|, k);
      StrAt(data, off + |BinHead(k, |d|)|, d);
  }

  lemma ScalarReads(f: Form, data: Bytes, off: nat)
    requires Fits(f) && !f.ArrayForm? && !f.MapForm? && At(data, off, Write(f))
    ensures DecodeValue(data, off) == Ok(Meaning(f), off + |Write(f)|)
  {
    hide DecodeValue, Words, BE;
    if f.NilForm? || f.BoolForm? { ConstReadBack(Meaning(f), data, off); }
    else if f.StrForm? || f.BinForm? { TextReads(f, data, off); }
    else { NumberReads(f, data, off); }
  }

  lemma ArrayHeadReads(k: nat, n: nat, data: Bytes, off: nat)
    requires CountFits(k, n) && At(data, off, ArrayHead(k, n))
    ensures DecodeValue(data, off) == DecodeElems(data, off + |ArrayHead(k, n)|, n, [])
  {
    hide BE, Words, DecodeValue, DecodeElems, At;
    if k == 0 { ShortAt(data, off, 0x90 + n); } else { CountAt(data, off, n, k, false); }
  }

  lemma MapHeadReads(k: nat, n: nat, data: Bytes, off: nat)
    requires CountFits(k, n) && At(data, off, MapHead(k, n))
    ensures DecodeValue(data, off) == DecodePairs(data, off + |MapHead(k, n)|, n, [])
  {
    hide BE, Words, DecodeValue, DecodePairs, At;
    if k == 0 { ShortAt(data, off, 0x80 + n); } else { CountAt(data, off, n, k, true); }
  }

  /**
   Wherever a form stands, in whatever widths and however nested, the decoder returns its value and stops
   right behind it, or throws exactly when an array is used as a key.
   */
  lemma {:induction false} FormReads(f: Form, data: Bytes, off: nat)
    requires Fits(f) && At(data, off, Write(f))
    ensures DecodeValue(data, off) == if Readable(f) then Ok(Meaning(f), off + |Write(f)|) else BadKey
    decreases f, 1
  {
    hide *;
    if f.ArrayForm? { ArrayReads(f, data, off); }
    else if f.MapForm? { MapReads(f, data, off); }
    else { ScalarReads(f, data, off); ScalarReadable(f); }
  }

  lemma ScalarReadable(f: Form)
    requires !f.ArrayForm? && !f.MapForm?
    ensures Readable(f)
  {
  }

  lemma ArrayReads(f: Form, data: Bytes, off: nat)
    requires f.ArrayForm? && Fits(f) && At(data, off, Write(f))
    ensures DecodeValue(data, off) == if Readable(f) then Ok(Meaning(f), off + |Write(f)|) else BadKey
    decreases f, 0
  {
    hide DecodeValue, DecodeElems, ArrayHead, AllFit, WriteAll, AllReadable, Elems, At, Words;
    var k, fs := f.k, f.elems;
    AtSplit(data, off, ArrayHead(k, |fs|), WriteAll(fs));
    ArrayHeadReads(k, |fs|, data, off);
    ElemsRead(fs, data, off + |ArrayHead(k, |fs|)|, []);
  }

  lemma MapReads(f: Form, data: Bytes, off: nat)
    requires f.MapForm? && Fits(f) && At(data, off, Write(f))
    ensures DecodeValue(data, off) == if Readable(f) then Ok(Meaning(f), off + |Write(f)|) else BadKey
    decreases f, 0
  {
    hide DecodeValue, DecodePairs, MapHead, PairsFit, WritePairs, PairsReadable, Table, At, Words;
    var k, ps := f.k, f.pairs;
    AtSplit(data, off, MapHead(k, |ps|), WritePairs(ps));
    MapHeadReads(k, |ps|, data, off);
    PairsRead(ps, data, off + |MapHead(k, |ps|)|, []);
  }

  lemma {:induction false} ElemsRead(fs: seq<Form>, data: Bytes, off: nat, acc: seq<Entry>)
    requires AllFit(fs) && At(data, off, WriteAll(fs))
    ensures DecodeElems(data, off, |fs|, acc)
            == if AllReadable(fs) then Ok(Arr(Elems(fs, acc)), off + |WriteAll(fs)|) else BadKey
    decreases fs, 0
  {
    hide DecodeValue, Write, Fits, Meaning, Readable, At;
    if fs != [] {
      AtSplit(data, off, Write(fs[0]), WriteAll(fs[1..]));
      FormReads(fs[0], data, off);
      ElemsRead(fs[1..], data, off + |Write(fs[0])|, acc + [Entry(IntKey(|acc|), Meaning(fs[0]))]);
    }
  }

  lemma {:induction false} PairsRead(ps: seq<Pair>, data: Bytes, off: nat, acc: seq<Entry>)
    requires PairsFit(ps) && At(data, off, WritePairs(ps))
    ensures DecodePairs(data, off, |ps|, acc)
            == if PairsReadable(ps) then Ok(Arr(Table(ps, acc)), off + |WritePairs(ps)|) else BadKey
    decreases ps, 0
  {
    hide DecodeValue, Write, Fits, Meaning, Readable, At, KeyOf, Put;
    if ps != [] {
      var p := ps[0];
      assert p.key < p && p.value < p;
      var k, v, more := Write(p.key), Write(p.value), WritePairs(ps[1..]);
      assert k + v + more == k + (v + more);
      AtSplit(data, off, k, v + more);
      AtSplit(data, off + |k|, v, more);
      FormReads(p.key, data, off);
      FormReads(p.value, data, off + |k|);
      KeyForm(p.key);
      if KeyOf(Meaning(p.key)).SomeKey? {
        PairsRead(ps[1..], data, off + |k| + |v|, Put(acc, KeyOf(Meaning(p.key)).key, Meaning(p.value)));
      }
    }
  }

  lemma KeyForm(f: Form)
    ensures KeyOf(Meaning(f)).SomeKey? <==> !f.ArrayForm? && !f.MapForm?
    ensures KeyOf(Meaning(f)).SomeKey? ==> Readable(f)
  {
    hide Elems, Table, NormKey;
  }

  // ---------------------------------------------------------------- forms of supported values

  lemma {:induction false} SpelledElems(fs: seq<Form>, es: seq<Entry>, acc: seq<Entry>)
    requires AllFit(fs) && SpellsAll(fs, es) && SupportedEntries(es) && ListFrom(es, |acc|)
    ensures AllReadable(fs) && Elems(fs, acc) == acc + PlainEntries(es)
    decreases fs, 0
  {
    hide Meaning, Plain, Spells, Fits, Readable, Supported, ValidKey, KeyText;
    if fs == [] {
      assert acc + PlainEntries(es) == acc;
    } else {
      hide PlainEntries;
      SpelledValue(fs[0], es[0].value);
      ListTail(es, |acc|);
      SpelledElems(fs[1..], es[1..], acc + [Entry(IntKey(|acc|), Meaning(fs[0]))]);
      PlainStep(es, acc);
    }
  }

  lemma {:induction false} SpelledPairs(ps: seq<Pair>, es: seq<Entry>, acc: seq<Entry>)
    requires PairsFit(ps) && SpellsPairs(ps, es) && SupportedEntries(es) && DistinctKeys(acc + es)
    ensures PairsReadable(ps) && Table(ps, acc) == acc + PlainEntries(es)
    decreases ps, 0
  {
    hide Plain, Spells, Fits, Readable, Supported, ValidKey, KeyText, DistinctKeys, Put, NormKey;
    if ps == [] {
      assert acc + PlainEntries(es) == acc;
    } else {
      hide PlainEntries;
      assert ps[0].key < ps[0] && ps[0].value < ps[0];
      SpelledValue(ps[0].value, es[0].value);
      KeyTextReadBack(es[0].key);
      PutNewKey(acc, es, Plain(es[0].value));
      SpelledPairs(ps[1..], es[1..], acc + [Entry(es[0].key, Plain(es[0].value))]);
      PlainStep(es, acc);
      hide Meaning;
    }
  }

  /** Whatever the widths, a form of a supported value reads as that value. */
  lemma {:induction false} SpelledValue(f: Form, v: Value)
    requires Fits(f) && Spells(f, v) && Supported(v)
    ensures Readable(f) && Meaning(f) == Plain(v)
    decreases f, 1
  {
    hide AllFit, PairsFit, SpellsAll, SpellsPairs, SupportedEntries, PlainEntries, Elems, Table, Words, DistinctKeys;
    match f
    case ArrayForm(_, fs) =>
      SpelledElems(fs, v.entries, []);
      assert [] + PlainEntries(v.entries) == PlainEntries(v.entries);
    case MapForm(_, ps) =>
      assert [] + v.entries == v.entries;
      SpelledPairs(ps, v.entries, []);
      assert [] + PlainEntries(v.entries) == PlainEntries(v.entries);
    case _ =>
  }

  /** A peer may write a value in any widths: the decoder reads the value and stops right behind it. */
  lemma AnySpellingReads(f: Form, v: Value, data: Bytes, off: nat)
    requires Fits(f) && Spells(f, v) && Supported(v) && At(data, off, Write(f))
    ensures DecodeValue(data, off) == Ok(Plain(v), off + |Write(f)|)
  {
    hide *;
    FormReads(f, data, off);
    SpelledValue(f, v);
  }

  // ---------------------------------------------------------------- keys and pairs that come again

  /** What each kind of scalar is as a key of a PHP array. */
  lemma KeyMeaning(f: Form, g: Form)
    requires !f.ArrayForm? && !f.MapForm?
    ensures Table([Pair(f, g)], [])
            == [Entry(match f
                      case NilForm => StrKey([])
                      case BoolForm(b) => IntKey(if b then 1 else 0)
                      case FixIntForm(n) => IntKey(n)
                      case UIntForm(_, n) => IntKey(if n >= TWO63 then n - TWO64 else n)
                      case IntForm(_, n) => IntKey(n)
                      case StrForm(_, s) => NormKey(s)
                      case BinForm(_, d) => NormKey(d),
                      Meaning(g))]
  {
    hide NormKey;
    assert [Pair(f, g)][1..] == [];
  }

  /** A key that is there already keeps its place and gets the new value; another one goes to the end. */
  lemma {:induction false} PutMeans(es: seq<Entry>, k: Key, v: Value, i: nat)
    requires i <= |es| && (i < |es| ==> es[i].key == k) && forall j :: 0 <= j < i ==> es[j].key != k
    ensures Put(es, k, v) == es[..i] + [Entry(k, v)] + if i < |es| then es[i + 1..] else []
  {
    if i == 0 {
      if es != [] { assert es[..0] + [Entry(k, v)] + es[1..] == [Entry(k, v)] + es[1..]; }
    } else {
      PutMeans(es[1..], k, v, i - 1);
      assert es[0].key != k && [es[0]] + es[1..][..i - 1] == es[..i];
      if i < |es| { assert es[1..][i..] == es[i + 1..]; }
    }
  }

  // ---------------------------------------------------------------- other tags, and input that ends early

  /** Tags that this decoder does not support read as null and cost one byte, as does nil itself. */
  lemma NullTags(data: Bytes, off: nat)
    requires off < |data|
    requires data[off] in {0xc0, 0xc1, 0xc7, 0xc8, 0xc9, 0xca, 0xcb, 0xd4, 0xd5, 0xd6, 0xd7, 0xd8}
    ensures DecodeValue(data, off) == Ok(Null, off + 1)
  {
  }

  /** A number that is cut short makes PHP warn. */
  lemma NumberCut(f: Form, data: Bytes, off: nat, m: nat)
    requires Fits(f) && (f.UIntForm? || f.IntForm?) && 0 < m < |Write(f)|
    requires off + m == |data| && data[off..] == Write(f)[..m]
    ensures DecodeValue(data, off) == Truncated
  {
    assert data[off] == data[off..][0] == Write(f)[0];
    hide BE, Words;
  }

  /** A string that is cut short is what there is of it; the offset moves past the end all the same. */
  lemma StrCut(k: nat, s: Bytes, len: nat, data: Bytes, off: nat)
    requires (if k == 0 then len <= 31 else (k == 1 || k == 2 || k == 4) && len < Words(k)) && |s| < len
    requires off + |StrHead(k, len)| + |s| == |data| && data[off..] == StrHead(k, len) + s
    ensures DecodeValue(data, off) == Ok(Str(s), off + |StrHead(k, len)| + len)
  {
    var h := StrHead(k, len);
    assert data[off..off + |h|] == data[off..][..|h|] == h;
    assert data[off + |h|..] == data[off..][|h|..] == s;
    HeadReads(k, len, data, off);
    hide *;
    ReadCut(data, off + |h|, s, len);
  }

  lemma ReadCut(data: Bytes, off: nat, s: Bytes, len: nat)
    requires off + |s| == |data| && data[off..] == s && |s| < len
    ensures ReadStr(data, off, len) == Ok(Str(s), off + len)
  {
  }

  lemma HeadReads(k: nat, len: nat, data: Bytes, off: nat)
    requires if k == 0 then len <= 31 else (k == 1 || k == 2 || k == 4) && len < Words(k)
    requires At(data, off, StrHead(k, len))
    ensures DecodeValue(data, off) == ReadStr(data, off + |StrHead(k, len)|, len)
  {
    hide BE, Words, DecodeValue, At, ReadStr;
    if k == 0 { ShortAt(data, off, 0xa0 + len); } else { LengthAt(data, off, StrHead(k, len)[0], len, k); }
  }

  /** Elements that are missing at the end of the input are null. */
  lemma {:induction false} MissingElems(data: Bytes, off: nat, n: nat, acc: seq<Entry>)
    requires off >= |data|
    ensures DecodeValue(data, off) == Ok(Null, off)
    ensures DecodeElems(data, off, n, acc)
            == Ok(Arr(acc + seq(n, i requires i >= 0 => Entry(IntKey(|acc| + i), Null))), off)
    decreases n
  {
    if n == 0 {
      assert acc + seq(n, i requires i >= 0 => Entry(IntKey(|acc| + i), Null)) == acc;
    } else {
      var acc' := acc + [Entry(IntKey(|acc|), Null)];
      MissingElems(data, off, n - 1, acc');
      assert acc' + seq(n - 1, i requires i >= 0 => Entry(IntKey(|acc'| + i), Null))
          == acc + seq(n, i requires i >= 0 => Entry(IntKey(|acc| + i), Null));
    }
  }
}
