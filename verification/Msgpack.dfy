/**
 The MessagePack codec of the PHP SDK, as functions on byte strings.

 A PHP array is an ordered table from keys to values; a key is an integer, or a string that is
 not itself the canonical decimal text of a 64-bit integer (PHP stores such a string as the
 integer). The encoder writes keys as text and the decoder lets PHP normalise them again.
 */
module Msgpack {
  import opened Bytes
  import opened Decimal
  import opened Int64

  datatype Key = IntKey(i: int) | StrKey(s: Bytes)

  datatype Value =
    | Null
    | Bool(b: bool)
    | Int(n: int)
    | Str(s: Bytes)
    | Bin(data: Bytes)
    | Arr(entries: seq<Entry>)

  datatype Entry = Entry(key: Key, value: Value)

  // ---------------------------------------------------------------- array keys

  /** `$map[$k]` with a string `$k`. */
  function NormKey(s: Bytes): Key
  {
    if Canonical(s) && InRange(CanonicalValue(s)) then IntKey(CanonicalValue(s)) else StrKey(s)
  }

  /** `(string)$k`. */
  function KeyText(k: Key): Bytes
  {
    match k
    case IntKey(i) => Text(i)
    case StrKey(s) => s
  }

  predicate ValidKey(k: Key)
  {
    match k
    case IntKey(i) => InRange(i)
    case StrKey(s) => NormKey(s) == StrKey(s)
  }

  /** Turning any key of a PHP array into text and back gives the same key. */
  lemma KeyTextReadBack(k: Key)
    requires ValidKey(k)
    ensures NormKey(KeyText(k)) == k
  {
    if k.IntKey? { TextIsCanonical(k.i); }
  }

  /** Normalising keeps the text, so two different texts are never the same key. */
  lemma NormKeyInjective(s: Bytes, t: Bytes)
    ensures KeyText(NormKey(s)) == s
    ensures NormKey(s) == NormKey(t) ==> s == t
  {
    if Canonical(s) { CanonicalIsText(s); }
    if Canonical(t) { CanonicalIsText(t); }
  }

  // ---------------------------------------------------------------- supported values

  predicate DistinctKeys(es: seq<Entry>)
  {
    forall i, j :: 0 <= i < j < |es| ==> es[i].key != es[j].key
  }

  predicate Supported(v: Value)
    decreases v, 1
  {
    match v
    case Null => true
    case Bool(_) => true
    case Int(n) => InRange(n)
    case Str(s) => |s| < TWO32
    case Bin(d) => |d| < TWO32
    case Arr(es) => |es| < TWO32 && DistinctKeys(es) && SupportedEntries(es)
  }

  predicate SupportedEntries(es: seq<Entry>)
    decreases es, 0
  {
    es == [] ||
    assert es[0].value < es[0];
    (ValidKey(es[0].key) && |KeyText(es[0].key)| < TWO32 && Supported(es[0].value) && SupportedEntries(es[1..]))
  }

  /** What a value reads back as: a `Bin` comes back as the plain string it wraps. */
  function Plain(v: Value): Value
    decreases v, 1
  {
    match v
    case Bin(d) => Str(d)
    case Arr(es) => Arr(PlainEntries(es))
    case _ => v
  }

  function PlainEntries(es: seq<Entry>): (r: seq<Entry>)
    ensures |r| == |es|
    decreases es, 0
  {
    if es == [] then []
    else
      assert es[0].value < es[0];
      [Entry(es[0].key, Plain(es[0].value))] + PlainEntries(es[1..])
  }

  // ---------------------------------------------------------------- encode

  function EncodeInt(n: int): Bytes
  {
    if 0 <= n <= 0x7f then [n]
    else if -32 <= n < 0 then [n + 0x100]
    else if 0 <= n <= 0xff then [0xcc] + BE(n, 1)
    else if 0 <= n <= 0xffff then [0xcd] + BE(n, 2)
    else if 0 <= n <= 0xffff_ffff then [0xce] + BE(n, 4)
    else if -128 <= n < 0 then [0xd0] + BE(n + 0x100, 1)
    else if -32768 <= n < 0 then [0xd1] + BE(n + 0x1_0000, 2)
    else if -0x8000_0000 <= n < 0 then [0xd2] + BE(n + TWO32, 4)
    else [0xd3] + BE(n % TWO64, 8)
  }

  function StrHeader(len: nat): Bytes
  {
    if len <= 31 then [0xa0 + len]
    else if len <= 0xff then [0xd9] + BE(len, 1)
    else if len <= 0xffff then [0xda] + BE(len, 2)
    else [0xdb] + BE(len, 4)
  }

  function BinHeader(len: nat): Bytes
  {
    if len <= 0xff then [0xc4] + BE(len, 1)
    else if len <= 0xffff then [0xc5] + BE(len, 2)
    else [0xc6] + BE(len, 4)
  }

  function ArrayHeader(n: nat): Bytes
  {
    if n <= 15 then [0x90 + n]
    else if n <= 0xffff then [0xdc] + BE(n, 2)
    else [0xdd] + BE(n, 4)
  }

  function MapHeader(n: nat): Bytes
  {
    if n <= 15 then [0x80 + n]
    else if n <= 0xffff then [0xde] + BE(n, 2)
    else [0xdf] + BE(n, 4)
  }

  function EncodeStr(s: Bytes): Bytes { StrHeader(|s|) + s }

  /** Keys are `base`, `base + 1`, ... in order. */
  predicate ListFrom(es: seq<Entry>, base: nat)
  {
    forall i :: 0 <= i < |es| ==> es[i].key == IntKey(base + i)
  }

  function Encode(v: Value): Bytes
    decreases v, 1
  {
    match v
    case Null => [0xc0]
    case Bool(b) => if b then [0xc3] else [0xc2]
    case Bin(d) => BinHeader(|d|) + d
    case Int(n) => EncodeInt(n)
    case Str(s) => EncodeStr(s)
    case Arr(es) =>
      if ListFrom(es, 0) then ArrayHeader(|es|) + EncodeElems(es) else MapHeader(|es|) + EncodePairs(es)
  }

  function EncodeElems(es: seq<Entry>): Bytes
    decreases es, 0
  {
    if es == [] then []
    else
      assert es[0].value < es[0];
      Encode(es[0].value) + EncodeElems(es[1..])
  }

  function EncodePairs(es: seq<Entry>): Bytes
    decreases es, 0
  {
    if es == [] then []
    else
      assert es[0].value < es[0];
      EncodeStr(KeyText(es[0].key)) + Encode(es[0].value) + EncodePairs(es[1..])
  }

  // ---------------------------------------------------------------- decode

  /** `Truncated` and `BadKey` stand for inputs on which PHP warns or throws. */
  datatype Decoded = Ok(value: Value, next: nat) | Truncated | BadKey

  /** A fixed-width big-endian field at `off`, if all of it is there. */
  datatype Field = Field(n: nat) | Missing

  function ReadField(data: Bytes, off: nat, k: nat): (f: Field)
    ensures f.Field? ==> f.n < Words(k)
  {
    if off + k <= |data| then Field(FromBE(data[off..off + k])) else Missing
  }

  /** `readStr`: `substr` yields what is left when the string is cut short; the offset moves all the same. */
  function ReadStr(data: Bytes, off: nat, len: nat): Decoded
  {
    if len == 0 then Ok(Str([]), off)
    else if off >= |data| then Ok(Str([]), off + len)
    else if off + len <= |data| then Ok(Str(data[off..off + len]), off + len)
    else Ok(Str(data[off..]), off + len)
  }

  function ReadStrOfWidth(data: Bytes, off: nat, k: nat): Decoded
  {
    match ReadField(data, off, k)
    case Field(len) => ReadStr(data, off + k, len)
    case Missing => Truncated
  }

  function ReadUnsigned(data: Bytes, off: nat, k: nat): Decoded
  {
    match ReadField(data, off, k)
    case Field(n) => Ok(Int(n), off + k)
    case Missing => Truncated
  }

  function ReadSigned(data: Bytes, off: nat, k: nat): Decoded
  {
    match ReadField(data, off, k)
    case Field(n) => Ok(Int(if n >= Words(k) / 2 then n - Words(k) else n), off + k)
    case Missing => Truncated
  }

  /** The key PHP uses for `$map[$k] = $v`; an array is not a legal key. */
  datatype MaybeKey = SomeKey(key: Key) | NoKey

  function KeyOf(v: Value): MaybeKey
  {
    match v
    case Null => SomeKey(StrKey([]))
    case Bool(b) => SomeKey(IntKey(if b then 1 else 0))
    case Int(n) => SomeKey(IntKey(n))
    case Str(s) => SomeKey(NormKey(s))
    case Bin(_) => NoKey
    case Arr(_) => NoKey
  }

  /** `$map[$k] = $v`: overwrites in place, or appends. */
  function Put(es: seq<Entry>, k: Key, v: Value): (r: seq<Entry>)
    ensures (forall i :: 0 <= i < |es| ==> es[i].key != k) ==> r == es + [Entry(k, v)]
  {
    if es == [] then [Entry(k, v)]
    else if es[0].key == k then [Entry(k, v)] + es[1..]
    else
      var r := [es[0]] + Put(es[1..], k, v);
      assert (forall i :: 0 <= i < |es| ==> es[i].key != k) ==> r == es + [Entry(k, v)] by {
        if forall i :: 0 <= i < |es| ==> es[i].key != k {
          assert forall i :: 0 <= i < |es[1..]| ==> es[1..][i].key == es[i + 1].key;
          assert [es[0]] + es[1..] == es;
        }
      }
      r
  }

  function Left(data: Bytes, off: nat): nat { if off >= |data| then 0 else |data| - off }

  function DecodeValue(data: Bytes, off: nat): (r: Decoded)
    ensures r.Ok? ==> r.next >= off
    decreases Left(data, off), 0
  {
    if off >= |data| then Ok(Null, off)
    else
      var b: int, o := data[off], off + 1;
      if b <= 0x7f then Ok(Int(b), o)
      else if b >= 0xe0 then Ok(Int(b - 0x100), o)
      else if b <= 0x8f then DecodePairs(data, o, b - 0x80, [])
      else if b <= 0x9f then DecodeElems(data, o, b - 0x90, [])
      else if b <= 0xbf then ReadStr(data, o, b - 0xa0)
      else match b
        case 0xc0 => Ok(Null, o)
        case 0xc2 => Ok(Bool(false), o)
        case 0xc3 => Ok(Bool(true), o)
        case 0xc4 => ReadStrOfWidth(data, o, 1)
        case 0xc5 => ReadStrOfWidth(data, o, 2)
        case 0xc6 => ReadStrOfWidth(data, o, 4)
        case 0xcc => ReadUnsigned(data, o, 1)
        case 0xcd => ReadUnsigned(data, o, 2)
        case 0xce => ReadUnsigned(data, o, 4)
        case 0xcf => ReadSigned(data, o, 8)   // PHP integers are signed: 'J' wraps
        case 0xd0 => ReadSigned(data, o, 1)
        case 0xd1 => ReadSigned(data, o, 2)
        case 0xd2 => ReadSigned(data, o, 4)
        case 0xd3 => ReadSigned(data, o, 8)
        case 0xd9 => ReadStrOfWidth(data, o, 1)
        case 0xda => ReadStrOfWidth(data, o, 2)
        case 0xdb => ReadStrOfWidth(data, o, 4)
        case 0xdc => DecodeCounted(data, o, 2, false)
        case 0xdd => DecodeCounted(data, o, 4, false)
        case 0xde => DecodeCounted(data, o, 2, true)
        case 0xdf => DecodeCounted(data, o, 4, true)
        case _ => Ok(Null, o)
  }

  /** An array or map whose count is a `k`-byte field. */
  function DecodeCounted(data: Bytes, off: nat, k: nat, isMap: bool): (r: Decoded)
    requires k > 0
    ensures r.Ok? ==> r.next >= off
    decreases Left(data, off), 0
  {
    match ReadField(data, off, k)
    case Missing => Truncated
    case Field(n) =>
      if isMap then DecodePairs(data, off + k, n, []) else DecodeElems(data, off + k, n, [])
  }

  /** `n` more elements, appended to `acc`. A count may exceed the bytes left: the rest read as null. */
  function DecodeElems(data: Bytes, off: nat, n: nat, acc: seq<Entry>): (r: Decoded)
    ensures r.Ok? ==> r.next >= off
    decreases Left(data, off), n
  {
    if n == 0 then Ok(Arr(acc), off)
    else
      match DecodeValue(data, off)
      case Ok(v, next) => DecodeElems(data, next, n - 1, acc + [Entry(IntKey(|acc|), v)])
      case bad => bad
  }

  function DecodePairs(data: Bytes, off: nat, n: nat, acc: seq<Entry>): (r: Decoded)
    ensures r.Ok? ==> r.next >= off
    decreases Left(data, off), n
  {
    if n == 0 then Ok(Arr(acc), off)
    else
      match DecodeValue(data, off)
      case Ok(k, mid) => (
        match DecodeValue(data, mid)
        case Ok(v, next) => (
          match KeyOf(k)
          case SomeKey(key) => DecodePairs(data, next, n - 1, Put(acc, key, v))
          case NoKey => BadKey)
        case bad => bad)
      case bad => bad
  }
}
