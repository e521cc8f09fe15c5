/** The marshaller of lib/marshaller.cpp as its helpers and loops, proved to produce and accept the format of Codec. */
module Marshaller {
  import opened Basics
  import opened Properties
  import opened TokenMap
  import opened Codec

  // ---------------------------------------------------------------- host words on a little-endian machine

  /** The bytes of a word in memory. */
  function Memory16(x: U16): seq<Byte> {
    [x % 0x100, x / 0x100]
  }

  function Memory32(x: U32): seq<Byte> {
    [x % 0x100, x / 0x100 % 0x100, x / 0x1_0000 % 0x100, x / 0x100_0000]
  }

  function Memory64(x: U64): seq<Byte> {
    Memory32(x % 0x1_0000_0000) + Memory32(x / 0x1_0000_0000)
  }

  /** The word that bytes in memory make up. */
  function Load16(b: seq<Byte>): U16
    requires |b| == 2
  {
    b[1] as int * 0x100 + b[0]
  }

  function Load32(b: seq<Byte>): U32
    requires |b| == 4
  {
    b[3] as int * 0x100_0000 + b[2] as int * 0x1_0000 + b[1] as int * 0x100 + b[0]
  }

  function Load64(b: seq<Byte>): U64
    requires |b| == 8
  {
    Load32(b[4..]) * 0x1_0000_0000 + Load32(b[..4])
  }

  /** htons, ntohs */
  function Swap16(x: U16): U16 {
    x % 0x100 * 0x100 + x / 0x100
  }

  /** htonl, ntohl */
  function Swap32(x: U32): U32 {
    x % 0x100 * 0x100_0000 + x / 0x100 % 0x100 * 0x1_0000 + x / 0x1_0000 % 0x100 * 0x100 + x / 0x100_0000
  }

  /** hostToNetwork, networkToHost: the two halves are swapped as well. */
  function Swap64(x: U64): U64 {
    var high := Swap32(x / 0x1_0000_0000);
    var low := Swap32(x % 0x1_0000_0000);
    low * 0x1_0000_0000 + high
  }

  /** Memory has the least significant byte first. */
  lemma MemoryIsLittle(x: U16, y: U32, z: U64)
    ensures |Memory16(x)| == 2 && Number([Memory16(x)[1], Memory16(x)[0]]) == x
    ensures |Memory32(y)| == 4 && Number([Memory32(y)[3], Memory32(y)[2], Memory32(y)[1], Memory32(y)[0]]) == y
    ensures var m := Memory64(z); |m| == 8 && Number([m[7], m[6], m[5], m[4], m[3], m[2], m[1], m[0]]) == z
  {
    Number2(Memory16(x)[1], Memory16(x)[0]);
    Backwards(y);
    Backwards(z / 0x1_0000_0000);
    Backwards(z % 0x1_0000_0000);
    var m := Memory64(z);
    assert [m[7], m[6], m[5], m[4], m[3], m[2], m[1], m[0]] == [m[7], m[6], m[5], m[4]] + [m[3], m[2], m[1], m[0]];
    NumberTwice([m[7], m[6], m[5], m[4]], [m[3], m[2], m[1], m[0]]);
  }

  lemma Backwards(y: U32)
    ensures |Memory32(y)| == 4 && Number([Memory32(y)[3], Memory32(y)[2], Memory32(y)[1], Memory32(y)[0]]) == y
  {
    Be32Says(y);
    assert [Memory32(y)[3], Memory32(y)[2], Memory32(y)[1], Memory32(y)[0]] == Be32(y);
  }

  lemma Memory16IsBig(x: U16)
    ensures Memory16(Swap16(x)) == Be16(x) && Number(Memory16(Swap16(x))) == x
  {
    Be16Says(x);
  }

  lemma Memory32Word(b: seq<Byte>)
    requires |b| == 4
    ensures Memory32(Load32(b)) == b
  {
    var q1: nat := b[3];
    var q2: nat := q1 * 0x100 + b[2];
    var q3: nat := q2 * 0x100 + b[1];
    var w := Load32(b);
    assert w == q3 * 0x100 + b[0];
    assert w / 0x100 == q3 && w % 0x100 == b[0];
    assert w / 0x1_0000 == q3 / 0x100 == q2 && q3 % 0x100 == b[1];
    assert w / 0x100_0000 == q2 / 0x100 == q1 && q2 % 0x100 == b[2];
    assert Memory32(w) == [b[0], b[1], b[2], b[3]] == b;
  }

  lemma Memory32IsBig(x: U32)
    ensures Memory32(Swap32(x)) == Be32(x) && Number(Memory32(Swap32(x))) == x
  {
    Be32Says(x);
    assert Swap32(x) == Load32(Be32(x));
    Memory32Word(Be32(x));
  }

  lemma Memory64IsBig(x: U64)
    ensures Memory64(Swap64(x)) == Be64(x) && Number(Memory64(Swap64(x))) == x
  {
    Be64Says(x);
    Memory32IsBig(x / 0x1_0000_0000);
    Memory32IsBig(x % 0x1_0000_0000);
    var high := Swap32(x / 0x1_0000_0000);
    var low := Swap32(x % 0x1_0000_0000);
    assert Swap64(x) / 0x1_0000_0000 == low && Swap64(x) % 0x1_0000_0000 == high;
  }

  lemma Load16IsBig(b: seq<Byte>)
    requires |b| == 2
    ensures Swap16(Load16(b)) == b[0] as int * 0x100 + b[1] == Number(b)
  {
    assert b == [b[0], b[1]];
    Number2(b[0], b[1]);
  }

  lemma Load32IsBig(b: seq<Byte>)
    requires |b| == 4
    ensures Swap32(Load32(b)) == Word32(b) == Number(b)
  {
    Word32Says(b);
    Memory32Word(b);
    var w := Load32(b);
    assert Memory32(w)[0] == b[0] && Memory32(w)[1] == b[1] && Memory32(w)[2] == b[2] && Memory32(w)[3] == b[3];
  }

  lemma Load64IsBig(b: seq<Byte>)
    requires |b| == 8
    ensures Swap64(Load64(b)) == Word64(b) == Number(b)
  {
    Word64Says(b);
    Load32IsBig(b[..4]);
    Load32IsBig(b[4..]);
    var x := Load64(b);
    assert x / 0x1_0000_0000 == Load32(b[4..]) && x % 0x1_0000_0000 == Load32(b[..4]);
  }

  // ---------------------------------------------------------------- writing

  class MarshallHelper {
    var vector: seq<Byte>

    constructor ()
      ensures vector == []
    {
      vector := [];
    }

    method WriteByte(x: Byte)
      modifies this
      ensures vector == old(vector) + One(x)
    {
      vector := vector + [x];
    }

    method WriteU16(x: U16)
      modifies this
      ensures vector == old(vector) + Be16(x) && |Be16(x)| == 2 && Number(vector[|old(vector)|..]) == x
    {
      hide Be16, Number, Swap16, Memory16;
      Be16Says(x);
      Memory16IsBig(x);
      vector := vector + Memory16(Swap16(x));
    }

    method WriteU32(x: U32)
      modifies this
      ensures vector == old(vector) + Be32(x) && |Be32(x)| == 4 && Number(vector[|old(vector)|..]) == x
    {
      hide Be32, Number, Swap32, Memory32;
      Be32Says(x);
      Memory32IsBig(x);
      vector := vector + Memory32(Swap32(x));
    }

    method WriteU64(x: U64)
      modifies this
      ensures vector == old(vector) + Be64(x) && |Be64(x)| == 8 && Number(vector[|old(vector)|..]) == x
    {
      hide Be64, Number, Swap64, Memory64;
      Be64Says(x);
      Memory64IsBig(x);
      vector := vector + Memory64(Swap64(x));
    }

    /** Strings and byte vectors */
    method WriteBlob(s: seq<Byte>)
      modifies this
      ensures vector == old(vector) + Blob(s)
    {
      WriteU32(Size32(|s|));
      vector := vector + s;
    }
  }

  // ---------------------------------------------------------------- reading

  /** A read returns what the decoder finds at the front and moves past it, or reports failure. */
  ghost predicate Took<T>(r: Option<(T, seq<Byte>)>, ok: bool, x: T, rest: seq<Byte>) {
    ok == r.Some? && (ok ==> r.value == (x, rest))
  }

  class UnmarshallHelper {
    const bytes: seq<Byte>
    var index: nat

    ghost predicate Valid()
      reads this
    {
      index <= |bytes|
    }

    /** What has not been read yet. */
    ghost function Rest(): seq<Byte>
      requires Valid()
      reads this
    {
      bytes[index..]
    }

    constructor (bytes: seq<Byte>)
      ensures Valid() && Rest() == bytes
    {
      this.bytes := bytes;
      index := 0;
    }

    method ReadByte() returns (ok: bool, x: Byte)
      requires Valid()
      modifies this
      ensures Valid() && Took(Read8(old(Rest())), ok, x, Rest())
    {
      if |bytes| < 1 + index {
        return false, 0;
      }
      x := bytes[index];
      index := index + 1;
      ok := true;
    }

    method ReadU16() returns (ok: bool, x: U16)
      requires Valid()
      modifies this
      ensures Valid() && Took(Read16(old(Rest())), ok, x, Rest())
      ensures (ok <==> |old(Rest())| >= 2) && (ok ==> x == Number(old(Rest())[..2]) && Rest() == old(Rest())[2..])
    {
      if |bytes| < 2 + index {
        return false, 0;
      }
      Load16IsBig(bytes[index..index + 2]);
      x := Swap16(Load16(bytes[index..index + 2]));
      index := index + 2;
      ok := true;
    }

    method ReadU32() returns (ok: bool, x: U32)
      requires Valid()
      modifies this
      ensures Valid() && Took(Read32(old(Rest())), ok, x, Rest())
      ensures (ok <==> |old(Rest())| >= 4) && (ok ==> x == Number(old(Rest())[..4]) && Rest() == old(Rest())[4..])
    {
      if |bytes| < 4 + index {
        return false, 0;
      }
      assert Rest()[..4] == bytes[index..index + 4];
      Load32IsBig(bytes[index..index + 4]);
      x := Swap32(Load32(bytes[index..index + 4]));
      index := index + 4;
      ok := true;
    }

    method ReadU64() returns (ok: bool, x: U64)
      requires Valid()
      modifies this
      ensures Valid() && Took(Read64(old(Rest())), ok, x, Rest())
      ensures (ok <==> |old(Rest())| >= 8) && (ok ==> x == Number(old(Rest())[..8]) && Rest() == old(Rest())[8..])
    {
      if |bytes| < 8 + index {
        return false, 0;
      }
      hide Swap64, Load64, Word64;
      var raw := bytes[index..index + 8];
      assert Rest()[..8] == raw;
      Load64IsBig(raw);
      x := Swap64(Load64(raw));
      index := index + 8;
      ok := true;
    }

    method ReadBlob() returns (ok: bool, s: seq<Byte>)
      requires Valid()
      modifies this
      ensures Valid() && Took(Codec.ReadBlob(old(Rest())), ok, s, Rest())
    {
      var got, len := ReadU32();
      if !got || |bytes| < len + index {
        return false, [];
      }
      assert Rest()[..len] == bytes[index..index + len];
      s := bytes[index..index + len];
      index := index + len;
      ok := true;
    }
  }

  // ---------------------------------------------------------------- the vector loops

  lemma EncodeBack<T>(enc: T -> seq<Byte>, xs: seq<T>, i: nat)
    requires i < |xs|
    ensures EncodeAll(enc, xs[..i + 1]) == EncodeAll(enc, xs[..i]) + enc(xs[i])
  {
    assert xs[..i + 1][..i] == xs[..i];
  }

  lemma EncodeNone<T>(enc: T -> seq<Byte>, xs: seq<T>)
    ensures EncodeAll(enc, xs[..0]) == []
  {
  }

  method MarshallBytes(xs: seq<Byte>) returns (bytes: seq<Byte>)
    ensures bytes == List(One, xs)
  {
    hide Be32, One, Number, Size32, EncodeAll;
    var helper := new MarshallHelper();
    helper.WriteU32(Size32(|xs|));
    EncodeNone(One, xs);
    for i := 0 to |xs|
      invariant helper.vector == Be32(Size32(|xs|)) + EncodeAll(One, xs[..i])
    {
      EncodeBack(One, xs, i);
      Regroup(Be32(Size32(|xs|)), EncodeAll(One, xs[..i]), One(xs[i]));
      helper.WriteByte(xs[i]);
    }
    assert xs[..|xs|] == xs;
    bytes := helper.vector;
  }

  method MarshallWords(xs: seq<U16>) returns (bytes: seq<Byte>)
    ensures bytes == List(Be16, xs)
  {
    hide Be32, Be16, Number, Size32, EncodeAll;
    var helper := new MarshallHelper();
    helper.WriteU32(Size32(|xs|));
    EncodeNone(Be16, xs);
    for i := 0 to |xs|
      invariant helper.vector == Be32(Size32(|xs|)) + EncodeAll(Be16, xs[..i])
    {
      EncodeBack(Be16, xs, i);
      Regroup(Be32(Size32(|xs|)), EncodeAll(Be16, xs[..i]), Be16(xs[i]));
      helper.WriteU16(xs[i]);
    }
    assert xs[..|xs|] == xs;
    bytes := helper.vector;
  }

  /** u32 vectors, and float vectors by their bits */
  method MarshallDwords(xs: seq<U32>) returns (bytes: seq<Byte>)
    ensures bytes == List(Be32, xs)
  {
    hide Be32, Number, Size32, EncodeAll;
    var helper := new MarshallHelper();
    helper.WriteU32(Size32(|xs|));
    EncodeNone(Be32, xs);
    for i := 0 to |xs|
      invariant helper.vector == Be32(Size32(|xs|)) + EncodeAll(Be32, xs[..i])
    {
      EncodeBack(Be32, xs, i);
      Regroup(Be32(Size32(|xs|)), EncodeAll(Be32, xs[..i]), Be32(xs[i]));
      helper.WriteU32(xs[i]);
    }
    assert xs[..|xs|] == xs;
    bytes := helper.vector;
  }

  method MarshallQwords(xs: seq<U64>) returns (bytes: seq<Byte>)
    ensures bytes == List(Be64, xs)
  {
    hide Be32, Be64, Number, Size32, EncodeAll;
    var helper := new MarshallHelper();
    helper.WriteU32(Size32(|xs|));
    EncodeNone(Be64, xs);
    for i := 0 to |xs|
      invariant helper.vector == Be32(Size32(|xs|)) + EncodeAll(Be64, xs[..i])
    {
      EncodeBack(Be64, xs, i);
      Regroup(Be32(Size32(|xs|)), EncodeAll(Be64, xs[..i]), Be64(xs[i]));
      helper.WriteU64(xs[i]);
    }
    assert xs[..|xs|] == xs;
    bytes := helper.vector;
  }

  method MarshallStrings(xs: seq<Str>) returns (bytes: seq<Byte>)
    ensures bytes == List(Blob, xs)
  {
    hide Blob, Be32, Size32, EncodeAll;
    var helper := new MarshallHelper();
    helper.WriteU32(Size32(|xs|));
    EncodeNone(Blob, xs);
    for i := 0 to |xs|
      invariant helper.vector == Be32(Size32(|xs|)) + EncodeAll(Blob, xs[..i])
    {
      EncodeBack(Blob, xs, i);
      Regroup(Be32(Size32(|xs|)), EncodeAll(Blob, xs[..i]), Blob(xs[i]));
      helper.WriteBlob(xs[i]);
    }
    assert xs[..|xs|] == xs;
    bytes := helper.vector;
  }

  /** What a decoding loop has still to do, after it has read acc. */
  ghost function Resume<T>(acc: seq<T>, dec: Decoder<T>, n: nat, b: seq<Byte>): Option<(seq<T>, seq<Byte>)> {
    var r := DecodeAll(dec, n, b);
    if r.None? then None else Some((acc + r.value.0, r.value.1))
  }

  lemma ResumeStart<T>(dec: Decoder<T>, n: nat, b: seq<Byte>)
    ensures Resume([], dec, n, b) == DecodeAll(dec, n, b)
  {
    var r := DecodeAll(dec, n, b);
    assert r.Some? ==> [] + r.value.0 == r.value.0;
  }

  lemma ResumeEnd<T>(acc: seq<T>, dec: Decoder<T>, b: seq<Byte>)
    ensures Resume(acc, dec, 0, b) == Some((acc, b))
  {
    assert acc + [] == acc;
  }

  lemma ResumeStep<T>(acc: seq<T>, dec: Decoder<T>, n: nat, b: seq<Byte>)
    requires n > 0
    ensures Resume(acc, dec, n, b) == if dec(b).None? then None else Resume(acc + [dec(b).value.0], dec, n - 1, dec(b).value.1)
  {
    if dec(b).Some? {
      var r := DecodeAll(dec, n - 1, dec(b).value.1);
      if r.Some? {
        assert acc + ([dec(b).value.0] + r.value.0) == acc + [dec(b).value.0] + r.value.0;
      }
    }
  }

  method UnmarshallBytes(helper: UnmarshallHelper) returns (ok: bool, xs: seq<Byte>)
    requires helper.Valid()
    modifies helper
    ensures helper.Valid() && Took(ReadList(Read8, old(helper.Rest())), ok, xs, helper.Rest())
  {
    hide Read8, DecodeAll, Resume, Read32;
    var got, size := helper.ReadU32();
    xs := [];
    if !got {
      return false, xs;
    }
    ghost var all := DecodeAll(Read8, size, helper.Rest());
    ResumeStart(Read8, size, helper.Rest());
    while size > 0
      invariant helper.Valid() && Resume(xs, Read8, size, helper.Rest()) == all
    {
      ResumeStep(xs, Read8, size, helper.Rest());
      var read, x := helper.ReadByte();
      if !read {
        return false, xs;
      }
      xs, size := xs + [x], size - 1;
    }
    ResumeEnd(xs, Read8, helper.Rest());
    ok := true;
  }

  method UnmarshallWords(helper: UnmarshallHelper) returns (ok: bool, xs: seq<U16>)
    requires helper.Valid()
    modifies helper
    ensures helper.Valid() && Took(ReadList(Read16, old(helper.Rest())), ok, xs, helper.Rest())
  {
    hide Read16, DecodeAll, Resume, Read32;
    var got, size := helper.ReadU32();
    xs := [];
    if !got {
      return false, xs;
    }
    ghost var all := DecodeAll(Read16, size, helper.Rest());
    ResumeStart(Read16, size, helper.Rest());
    while size > 0
      invariant helper.Valid() && Resume(xs, Read16, size, helper.Rest()) == all
    {
      ResumeStep(xs, Read16, size, helper.Rest());
      var read, x := helper.ReadU16();
      if !read {
        return false, xs;
      }
      xs, size := xs + [x], size - 1;
    }
    ResumeEnd(xs, Read16, helper.Rest());
    ok := true;
  }

  method UnmarshallDwords(helper: UnmarshallHelper) returns (ok: bool, xs: seq<U32>)
    requires helper.Valid()
    modifies helper
    ensures helper.Valid() && Took(ReadList(Read32, old(helper.Rest())), ok, xs, helper.Rest())
  {
    hide Read32, DecodeAll, Resume;
    var got, size := helper.ReadU32();
    xs := [];
    if !got {
      return false, xs;
    }
    ghost var all := DecodeAll(Read32, size, helper.Rest());
    ResumeStart(Read32, size, helper.Rest());
    while size > 0
      invariant helper.Valid() && Resume(xs, Read32, size, helper.Rest()) == all
    {
      ResumeStep(xs, Read32, size, helper.Rest());
      var read, x := helper.ReadU32();
      if !read {
        return false, xs;
      }
      xs, size := xs + [x], size - 1;
    }
    ResumeEnd(xs, Read32, helper.Rest());
    ok := true;
  }

  method UnmarshallQwords(helper: UnmarshallHelper) returns (ok: bool, xs: seq<U64>)
    requires helper.Valid()
    modifies helper
    ensures helper.Valid() && Took(ReadList(Read64, old(helper.Rest())), ok, xs, helper.Rest())
  {
    hide Read64, DecodeAll, Resume, Read32;
    var got, size := helper.ReadU32();
    xs := [];
    if !got {
      return false, xs;
    }
    ghost var all := DecodeAll(Read64, size, helper.Rest());
    ResumeStart(Read64, size, helper.Rest());
    while size > 0
      invariant helper.Valid() && Resume(xs, Read64, size, helper.Rest()) == all
    {
      ResumeStep(xs, Read64, size, helper.Rest());
      var read, x := helper.ReadU64();
      if !read {
        return false, xs;
      }
      xs, size := xs + [x], size - 1;
    }
    ResumeEnd(xs, Read64, helper.Rest());
    ok := true;
  }

  method UnmarshallStrings(helper: UnmarshallHelper) returns (ok: bool, xs: seq<Str>)
    requires helper.Valid()
    modifies helper
    ensures helper.Valid() && Took(ReadList(Codec.ReadBlob, old(helper.Rest())), ok, xs, helper.Rest())
  {
    hide Codec.ReadBlob, DecodeAll, Resume, Read32;
    var got, size := helper.ReadU32();
    xs := [];
    if !got {
      return false, xs;
    }
    ghost var all := DecodeAll(Codec.ReadBlob, size, helper.Rest());
    ResumeStart(Codec.ReadBlob, size, helper.Rest());
    while size > 0
      invariant helper.Valid() && Resume(xs, Codec.ReadBlob, size, helper.Rest()) == all
    {
      ResumeStep(xs, Codec.ReadBlob, size, helper.Rest());
      var read, x := helper.ReadBlob();
      if !read {
        return false, xs;
      }
      xs, size := xs + [x], size - 1;
    }
    ResumeEnd(xs, Codec.ReadBlob, helper.Rest());
    ok := true;
  }

  // ---------------------------------------------------------------- values

  /** marshallValue for a tag and a value that belong together */
  method MarshallValue(tag: Str, v: Value) returns (bytes: seq<Byte>)
    requires KindOf(tag).Some? && Fits(KindOf(tag).value, v)
    ensures bytes == Encode(v)
  {
    hide KindOf, Be16, Be32, Be64;
    var helper := new MarshallHelper();
    match v {
      case OneByte(x) => helper.WriteByte(x); bytes := helper.vector;
      case OneWord(x) => helper.WriteU16(x); bytes := helper.vector;
      case OneDword(x) => helper.WriteU32(x); bytes := helper.vector;
      case OneQword(x) => helper.WriteU64(x); bytes := helper.vector;
      case OneFloat(x) => helper.WriteU32(x); bytes := helper.vector;
      case Bytes(xs) => bytes := MarshallBytes(xs);
      case Words(xs) => bytes := MarshallWords(xs);
      case Dwords(xs) => bytes := MarshallDwords(xs);
      case Qwords(xs) => bytes := MarshallQwords(xs);
      case Floats(xs) => bytes := MarshallDwords(xs);
      case Strings(xs) => bytes := MarshallStrings(xs);
    }
  }

  /** unmarshallValue; None where a read fails, after which the source goes on with an indeterminate value */
  method UnmarshallValue(tag: Str, bytes: seq<Byte>) returns (r: Option<Value>)
    ensures r == if KindOf(tag).None? then None else Decode(KindOf(tag).value, bytes)
  {
    hide KindOf, Read8, Read16, Read32, Read64, ReadList, Codec.ReadBlob;
    var kind := KindOf(tag);
    if kind.None? {
      return None;
    }
    var helper := new UnmarshallHelper(bytes);
    var ok;
    r := None;
    match kind.value {
      case KByte => var x; ok, x := helper.ReadByte(); if ok { r := Some(OneByte(x)); }
      case KWord => var x; ok, x := helper.ReadU16(); if ok { r := Some(OneWord(x)); }
      case KDword => var x; ok, x := helper.ReadU32(); if ok { r := Some(OneDword(x)); }
      case KQword => var x; ok, x := helper.ReadU64(); if ok { r := Some(OneQword(x)); }
      case KFloat => var x; ok, x := helper.ReadU32(); if ok { r := Some(OneFloat(x)); }
      case KBytes => var xs; ok, xs := UnmarshallBytes(helper); if ok { r := Some(Bytes(xs)); }
      case KWords => var xs; ok, xs := UnmarshallWords(helper); if ok { r := Some(Words(xs)); }
      case KDwords => var xs; ok, xs := UnmarshallDwords(helper); if ok { r := Some(Dwords(xs)); }
      case KQwords => var xs; ok, xs := UnmarshallQwords(helper); if ok { r := Some(Qwords(xs)); }
      case KFloats => var xs; ok, xs := UnmarshallDwords(helper); if ok { r := Some(Floats(xs)); }
      case KStrings => var xs; ok, xs := UnmarshallStrings(helper); if ok { r := Some(Strings(xs)); }
    }
  }

  // ---------------------------------------------------------------- maps

  /** marshallMap walks the map in an order of its own. */
  method MarshallMap(m: Props) returns (bytes: seq<Byte>, ghost order: seq<Str>)
    requires Keyed(m) && forall x :: x in m ==> KindOf(m[x].tag).Some? && Fits(KindOf(m[x].tag).value, m[x].value)
    ensures Walk(order, m) && |order| == |m| && bytes == EncodeMap(order, m)
  {
    hide KindOf, EncodeProperty, EncodeAll, Pick, Be32, Fits, Size32, NoDup;
    var helper := new MarshallHelper();
    PickNone(m);
    helper.WriteU32(Size32(|m|));
    ghost var head := helper.vector;
    var todo := m.Keys;
    order := [];
    while todo != {}
      invariant todo <= m.Keys && NoDup(order) && |order| + |todo| == |m|
      invariant forall x :: x in order <==> x in m && x !in todo
      invariant head == Be32(Size32(|m|)) && helper.vector == head + EncodeAll(EncodeProperty, Pick(order, m))
      decreases |todo|
    {
      var x :| x in todo;
      PickMore(order, m, x);
      Regroup(head, EncodeAll(EncodeProperty, Pick(order, m)), EncodeProperty(m[x]));
      MarshallProperty(helper, m[x]);
      order, todo := order + [x], todo - {x};
    }
    bytes := helper.vector;
  }

  method MarshallProperty(helper: MarshallHelper, p: Property)
    requires KindOf(p.tag).Some? && Fits(KindOf(p.tag).value, p.value)
    modifies helper
    ensures helper.vector == old(helper.vector) + EncodeProperty(p)
  {
    hide KindOf, Encode, Blob, Fits;
    helper.WriteBlob(p.id);
    helper.WriteBlob(p.tag);
    var raw := MarshallValue(p.tag, p.value);
    helper.WriteBlob(raw);
  }

  lemma PickNone(m: Props)
    ensures EncodeAll(EncodeProperty, Pick([], m)) == [] && NoDup<Str>([])
  {
  }

  lemma PickMore(order: seq<Str>, m: Props, x: Str)
    requires (forall y :: y in order ==> y in m) && x in m && x !in order && NoDup(order)
    ensures NoDup(order + [x])
    ensures forall y :: y in order + [x] <==> y in order || y == x
    ensures EncodeAll(EncodeProperty, Pick(order + [x], m)) == EncodeAll(EncodeProperty, Pick(order, m)) + EncodeProperty(m[x])
  {
    hide EncodeProperty;
    assert (order + [x])[..|order|] == order;
    var ps := Pick(order + [x], m);
    assert ps[..|order|] == Pick(order, m);
  }

  /** unmarshallMap */
  method UnmarshallMap(bytes: seq<Byte>) returns (r: Option<Props>)
    ensures r == if ReadMap(bytes).None? then None else Some(ReadMap(bytes).value.0)
  {
    hide ReadProperty, Read32, Resume, DecodeAll, Gather;
    var helper := new UnmarshallHelper(bytes);
    var got, propertiesNum := helper.ReadU32();
    if !got {
      return None;
    }
    var output: Props := map[];
    ghost var ps: seq<Property> := [];
    ghost var all := DecodeAll(ReadProperty, propertiesNum, helper.Rest());
    ResumeStart(ReadProperty, propertiesNum, helper.Rest());
    GatherNone();
    while propertiesNum > 0
      invariant helper.Valid() && Resume(ps, ReadProperty, propertiesNum, helper.Rest()) == all && output == Gather(ps)
    {
      ResumeStep(ps, ReadProperty, propertiesNum, helper.Rest());
      var read, p := UnmarshallProperty(helper);
      if !read {
        return None;
      }
      GatherMore(ps, p);
      output := Emplace(output, p.id, p.tag, p.value);
      ps, propertiesNum := ps + [p], propertiesNum - 1;
    }
    ResumeEnd(ps, ReadProperty, helper.Rest());
    r := Some(output);
  }

  lemma GatherNone()
    ensures Gather([]) == map[]
  {
  }

  lemma GatherMore(ps: seq<Property>, p: Property)
    ensures Gather(ps + [p]) == Emplace(Gather(ps), p.id, p.tag, p.value)
  {
    assert (ps + [p])[..|ps|] == ps;
  }

  /** One round of the loop of unmarshallMap. */
  method UnmarshallProperty(helper: UnmarshallHelper) returns (ok: bool, p: Property)
    requires helper.Valid()
    modifies helper
    ensures helper.Valid() && Took(ReadProperty(old(helper.Rest())), ok, p, helper.Rest())
  {
    hide Decode, KindOf, Codec.ReadBlob;
    p := Property([], [], OneByte(0));
    var gotId, id := helper.ReadBlob();
    if !gotId {
      return false, p;
    }
    var gotTag, tag := helper.ReadBlob();
    if !gotTag {
      return false, p;
    }
    var gotRaw, raw := helper.ReadBlob();
    if !gotRaw {
      return false, p;
    }
    var v := UnmarshallValue(tag, raw);
    if v.None? {
      return false, p;
    }
    return true, Property(id, tag, v.value);
  }
}
