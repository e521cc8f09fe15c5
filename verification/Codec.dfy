/** The wire format of lib/marshaller.cpp as functions: words, strings, lists, values and property maps. */
module Codec {
  import opened Basics
  import opened Properties
  import opened TokenMap

  // ---------------------------------------------------------------- words

  function Be16(x: U16): seq<Byte> {
    [x / 0x100, x % 0x100]
  }

  function Be32(x: U32): seq<Byte> {
    [x / 0x100_0000, x / 0x1_0000 % 0x100, x / 0x100 % 0x100, x % 0x100]
  }

  function Be64(x: U64): seq<Byte> {
    Be32(x / 0x1_0000_0000) + Be32(x % 0x1_0000_0000)
  }

  // ---------------------------------------------------------------- what the bytes of a word say

  /** The number that bytes write down in base 256, the most significant first. */
  function Number(b: seq<Byte>): nat {
    if b == [] then 0 else Number(b[..|b| - 1]) * 0x100 + b[|b| - 1]
  }

  /** n divided by 256, k times. */
  function Shifted(n: nat, k: nat): nat {
    if k == 0 then n else Shifted(n / 0x100, k - 1)
  }

  /** The byte at position j from the front is the base-256 digit with as many below it as bytes behind it. */
  lemma {:induction false} DigitAt(b: seq<Byte>, j: nat)
    requires j < |b|
    ensures Shifted(Number(b), |b| - 1 - j) % 0x100 == b[j]
  {
    if j < |b| - 1 {
      DigitAt(b[..|b| - 1], j);
      assert Number(b) / 0x100 == Number(b[..|b| - 1]);
    }
  }

  lemma NumberLast(b: seq<Byte>, x: Byte)
    ensures Number(b + [x]) == Number(b) * 0x100 + x
  {
    assert (b + [x])[..|b|] == b;
  }

  lemma Number2(a: Byte, b: Byte)
    ensures Number([a, b]) == a * 0x100 + b
  {
    assert [a, b] == [] + [a] + [b];
    NumberLast([], a);
    NumberLast([] + [a], b);
  }

  lemma Number4(a: Byte, b: Byte, c: Byte, d: Byte)
    ensures Number([a, b, c, d]) == a * 0x100_0000 + b * 0x1_0000 + c * 0x100 + d
  {
    assert [a, b, c, d] == [a, b] + [c] + [d];
    Number2(a, b);
    NumberLast([a, b], c);
    NumberLast([a, b] + [c], d);
  }

  /** Four more bytes move a number up by 32 bits. */
  lemma NumberTwice(b: seq<Byte>, c: seq<Byte>)
    requires |c| == 4
    ensures Number(b + c) == Number(b) * 0x1_0000_0000 + Number(c)
  {
    assert b + c == b + [c[0]] + [c[1]] + [c[2]] + [c[3]];
    assert c == [c[0], c[1], c[2], c[3]];
    NumberLast(b, c[0]);
    NumberLast(b + [c[0]], c[1]);
    NumberLast(b + [c[0]] + [c[1]], c[2]);
    NumberLast(b + [c[0]] + [c[1]] + [c[2]], c[3]);
    Number4(c[0], c[1], c[2], c[3]);
  }

  lemma SameDigits(q: nat, x: Byte, q': nat, x': Byte)
    requires q * 0x100 + x == q' * 0x100 + x'
    ensures q == q' && x == x'
  {
  }

  /** Of one length, no two byte strings write down the same number. */
  lemma {:induction false} NumberIsOnce(b: seq<Byte>, c: seq<Byte>)
    requires |b| == |c| && Number(b) == Number(c)
    ensures b == c
  {
    if b != [] {
      var last := |b| - 1;
      SameDigits(Number(b[..last]), b[last], Number(c[..last]), c[last]);
      NumberIsOnce(b[..last], c[..last]);
      assert b == b[..last] + [b[last]] && c == c[..last] + [c[last]];
    }
  }

  /** Words are written in two, four and eight bytes, the most significant first. */
  lemma Be16Says(x: U16)
    ensures |Be16(x)| == 2 && Number(Be16(x)) == x
  {
    Number2(x / 0x100, x % 0x100);
  }

  lemma Be32Says(x: U32)
    ensures |Be32(x)| == 4 && Number(Be32(x)) == x
  {
    var b := Be32(x);
    Number4(b[0], b[1], b[2], b[3]);
    Word32Be(x);
  }

  lemma Be64Says(x: U64)
    ensures |Be64(x)| == 8 && Number(Be64(x)) == x
  {
    Be32Says(x / 0x1_0000_0000);
    Be32Says(x % 0x1_0000_0000);
    NumberTwice(Be32(x / 0x1_0000_0000), Be32(x % 0x1_0000_0000));
  }

  lemma Word32Says(b: seq<Byte>)
    requires |b| == 4
    ensures Word32(b) == Number(b)
  {
    assert b == [b[0], b[1], b[2], b[3]];
    Number4(b[0], b[1], b[2], b[3]);
  }

  lemma Word64Says(b: seq<Byte>)
    requires |b| == 8
    ensures Word64(b) == Number(b)
  {
    assert b == b[..4] + b[4..];
    Word32Says(b[..4]);
    Word32Says(b[4..]);
    NumberTwice(b[..4], b[4..]);
  }

  lemma Read16Says(b: seq<Byte>)
    requires |b| >= 2
    ensures Read16(b).Some? && Read16(b).value.0 == Number(b[..2])
  {
    assert b[..2] == [b[0], b[1]];
    Number2(b[0], b[1]);
  }

  /** A decoder takes what it needs from the front, or fails. */
  type Decoder<!T> = seq<Byte> -> Option<(T, seq<Byte>)>

  function Read8(b: seq<Byte>): Option<(Byte, seq<Byte>)> {
    if |b| < 1 then None else Some((b[0], b[1..]))
  }

  function Read16(b: seq<Byte>): Option<(U16, seq<Byte>)> {
    if |b| < 2 then None else Some((b[0] as int * 0x100 + b[1], b[2..]))
  }

  function Word32(b: seq<Byte>): U32
    requires |b| == 4
  {
    b[0] as int * 0x100_0000 + b[1] as int * 0x1_0000 + b[2] as int * 0x100 + b[3]
  }

  function Read32(b: seq<Byte>): Option<(U32, seq<Byte>)> {
    if |b| < 4 then None else Some((Word32(b[..4]), b[4..]))
  }

  function Word64(b: seq<Byte>): U64
    requires |b| == 8
  {
    Word32(b[..4]) * 0x1_0000_0000 + Word32(b[4..])
  }

  function Read64(b: seq<Byte>): Option<(U64, seq<Byte>)> {
    if |b| < 8 then None else Some((Word64(b[..8]), b[8..]))
  }

  /** dec undoes enc on x, whatever follows. */
  ghost predicate Undoes<T>(enc: T -> seq<Byte>, dec: Decoder<T>, x: T) {
    forall rest :: dec(enc(x) + rest) == Some((x, rest))
  }

  lemma RoundTrip8(x: Byte)
    ensures Undoes((y: Byte) => [y], Read8, x)
  {
    forall rest: seq<Byte>
      ensures Read8([x] + rest) == Some((x, rest))
    {
      assert ([x] + rest)[1..] == rest;
    }
  }

  lemma RoundTrip16(x: U16)
    ensures Undoes(Be16, Read16, x)
  {
    forall rest: seq<Byte>
      ensures Read16(Be16(x) + rest) == Some((x, rest))
    {
      assert (Be16(x) + rest)[2..] == rest;
    }
  }

  lemma Word32Be(x: U32)
    ensures Word32(Be32(x)) == x
  {
    var q := x / 0x100;
    assert q / 0x100 == x / 0x1_0000 && q / 0x1_0000 == x / 0x100_0000;
    assert x == q * 0x100 + x % 0x100;
    assert q == (q / 0x100) * 0x100 + q % 0x100;
    assert q / 0x100 == (q / 0x1_0000) * 0x100 + (q / 0x100) % 0x100;
  }

  lemma RoundTrip32(x: U32)
    ensures Undoes(Be32, Read32, x)
  {
    Word32Be(x);
    forall rest: seq<Byte>
      ensures Read32(Be32(x) + rest) == Some((x, rest))
    {
      assert (Be32(x) + rest)[4..] == rest;
      assert (Be32(x) + rest)[..4] == Be32(x);
    }
  }

  lemma RoundTrip64(x: U64)
    ensures Undoes(Be64, Read64, x)
  {
    Word32Be(x / 0x1_0000_0000);
    Word32Be(x % 0x1_0000_0000);
    forall rest: seq<Byte>
      ensures Read64(Be64(x) + rest) == Some((x, rest))
    {
      var b := Be64(x) + rest;
      assert b[8..] == rest;
      assert b[..8] == Be64(x);
      assert Be64(x)[..4] == Be32(x / 0x1_0000_0000);
      assert Be64(x)[4..] == Be32(x % 0x1_0000_0000);
    }
  }

  // ---------------------------------------------------------------- strings and lists

  /** The size field: static_cast<u32> of the size. */
  function Size32(n: nat): U32 {
    n % 0x1_0000_0000
  }

  function Blob(s: seq<Byte>): seq<Byte> {
    Be32(Size32(|s|)) + s
  }

  function ReadBlob(b: seq<Byte>): Option<(seq<Byte>, seq<Byte>)> {
    var n := Read32(b);
    if n.None? || |n.value.1| < n.value.0 then None
    else Some((n.value.1[..n.value.0], n.value.1[n.value.0..]))
  }

  lemma RoundTripBlob(s: seq<Byte>)
    requires |s| <= U32_MAX
    ensures Undoes(Blob, ReadBlob, s)
  {
    RoundTrip32(Size32(|s|));
    forall rest: seq<Byte>
      ensures ReadBlob(Blob(s) + rest) == Some((s, rest))
    {
      assert Blob(s) + rest == Be32(Size32(|s|)) + (s + rest);
      assert Read32(Be32(Size32(|s|)) + (s + rest)) == Some((Size32(|s|), s + rest));
    }
  }

  function EncodeAll<T>(enc: T -> seq<Byte>, xs: seq<T>): seq<Byte> {
    if xs == [] then [] else EncodeAll(enc, xs[..|xs| - 1]) + enc(xs[|xs| - 1])
  }

  function DecodeAll<T>(dec: Decoder<T>, n: nat, b: seq<Byte>): Option<(seq<T>, seq<Byte>)>
    decreases n
  {
    if n == 0 then Some(([], b))
    else
      var x := dec(b);
      if x.None? then None
      else
        var xs := DecodeAll(dec, n - 1, x.value.1);
        if xs.None? then None else Some(([x.value.0] + xs.value.0, xs.value.1))
  }

  lemma {:induction false} EncodeFront<T>(enc: T -> seq<Byte>, xs: seq<T>)
    requires xs != []
    ensures EncodeAll(enc, xs) == enc(xs[0]) + EncodeAll(enc, xs[1..])
  {
    var last := |xs| - 1;
    if last > 0 {
      EncodeFront(enc, xs[..last]);
      assert xs[..last][1..] == xs[1..][..last - 1];
      assert xs[1..][last - 1] == xs[last];
    } else {
      assert xs[..0] == [] && xs[1..] == [];
    }
  }

  /** A counted decoding loop undoes the encoding loop, element by element. */
  lemma {:induction false} RoundTripAll<T>(enc: T -> seq<Byte>, dec: Decoder<T>, xs: seq<T>, rest: seq<Byte>)
    requires forall x :: x in xs ==> Undoes(enc, dec, x)
    ensures DecodeAll(dec, |xs|, EncodeAll(enc, xs) + rest) == Some((xs, rest))
  {
    if xs != [] {
      EncodeFront(enc, xs);
      var tail := EncodeAll(enc, xs[1..]);
      assert EncodeAll(enc, xs) + rest == enc(xs[0]) + (tail + rest);
      assert xs[0] in xs && Undoes(enc, dec, xs[0]);
      assert dec(enc(xs[0]) + (tail + rest)) == Some((xs[0], tail + rest));
      RoundTripAll(enc, dec, xs[1..], rest);
      assert [xs[0]] + xs[1..] == xs;
    } else {
      assert [] + rest == rest;
    }
  }

  function List<T>(enc: T -> seq<Byte>, xs: seq<T>): seq<Byte> {
    Be32(Size32(|xs|)) + EncodeAll(enc, xs)
  }

  function ReadList<T>(dec: Decoder<T>, b: seq<Byte>): Option<(seq<T>, seq<Byte>)> {
    var n := Read32(b);
    if n.None? then None else DecodeAll(dec, n.value.0, n.value.1)
  }

  lemma ReadSize(n: U32, rest: seq<Byte>)
    ensures Read32(Be32(n) + rest) == Some((n, rest))
  {
    RoundTrip32(n);
    assert Undoes(Be32, Read32, n);
  }

  lemma RoundTripList<T>(enc: T -> seq<Byte>, dec: Decoder<T>, xs: seq<T>, rest: seq<Byte>)
    requires |xs| <= U32_MAX && forall x :: x in xs ==> Undoes(enc, dec, x)
    ensures ReadList(dec, List(enc, xs) + rest) == Some((xs, rest))
  {
    hide Be32, Read32, EncodeAll, DecodeAll, Undoes, Size32;
    var n := Size32(|xs|);
    var body := EncodeAll(enc, xs);
    SizeFits(|xs|);
    ReadSize(n, body + rest);
    RoundTripAll(enc, dec, xs, rest);
    Regroup(Be32(n), body, rest);
  }

  lemma SizeFits(n: nat)
    requires n <= U32_MAX
    ensures Size32(n) == n
  {
  }

  lemma Regroup<T>(a: seq<T>, b: seq<T>, c: seq<T>)
    ensures a + b + c == a + (b + c)
  {
  }

  // ---------------------------------------------------------------- values

  /** What a type tag says about the value behind it; the double tags and user-registered types are not modelled. */
  datatype Kind = KByte | KWord | KDword | KQword | KFloat | KBytes | KWords | KDwords | KQwords | KFloats | KStrings

  function KindOf(tag: Str): Option<Kind> {
    if tag == STRINGS_TAG then Some(KStrings)
    else if tag == Ascii("$u8") || tag == Ascii("$s8") then Some(KByte)
    else if tag == Ascii("$u16") || tag == Ascii("$s16") then Some(KWord)
    else if tag == Ascii("$u32") || tag == Ascii("$s32") then Some(KDword)
    else if tag == Ascii("$u64") || tag == Ascii("$s64") then Some(KQword)
    else if tag == Ascii("$float") then Some(KFloat)
    else if tag == Ascii("#u8") || tag == Ascii("#s8") then Some(KBytes)
    else if tag == Ascii("#u16") || tag == Ascii("#s16") then Some(KWords)
    else if tag == Ascii("#u32") || tag == Ascii("#s32") then Some(KDwords)
    else if tag == Ascii("#u64") || tag == Ascii("#s64") then Some(KQwords)
    else if tag == Ascii("#float") then Some(KFloats)
    else None
  }

  predicate Fits(k: Kind, v: Value) {
    match k
    case KByte => v.OneByte?
    case KWord => v.OneWord?
    case KDword => v.OneDword?
    case KQword => v.OneQword?
    case KFloat => v.OneFloat?
    case KBytes => v.Bytes?
    case KWords => v.Words?
    case KDwords => v.Dwords?
    case KQwords => v.Qwords?
    case KFloats => v.Floats?
    case KStrings => v.Strings?
  }

  function One(x: Byte): seq<Byte> {
    [x]
  }

  function Encode(v: Value): seq<Byte> {
    match v
    case OneByte(x) => One(x)
    case OneWord(x) => Be16(x)
    case OneDword(x) => Be32(x)
    case OneQword(x) => Be64(x)
    case OneFloat(x) => Be32(x)
    case Bytes(xs) => List(One, xs)
    case Words(xs) => List(Be16, xs)
    case Dwords(xs) => List(Be32, xs)
    case Qwords(xs) => List(Be64, xs)
    case Floats(xs) => List(Be32, xs)
    case Strings(xs) => List(Blob, xs)
  }

  function Wrap<T>(x: Option<(T, seq<Byte>)>, f: T -> Value): Option<Value> {
    if x.None? then None else Some(f(x.value.0))
  }

  /** The decoders look at the front of the bytes they are given and ignore the rest. */
  function Decode(k: Kind, b: seq<Byte>): Option<Value> {
    match k
    case KByte => Wrap(Read8(b), x => OneByte(x))
    case KWord => Wrap(Read16(b), x => OneWord(x))
    case KDword => Wrap(Read32(b), x => OneDword(x))
    case KQword => Wrap(Read64(b), x => OneQword(x))
    case KFloat => Wrap(Read32(b), x => OneFloat(x))
    case KBytes => Wrap(ReadList(Read8, b), xs => Bytes(xs))
    case KWords => Wrap(ReadList(Read16, b), xs => Words(xs))
    case KDwords => Wrap(ReadList(Read32, b), xs => Dwords(xs))
    case KQwords => Wrap(ReadList(Read64, b), xs => Qwords(xs))
    case KFloats => Wrap(ReadList(Read32, b), xs => Floats(xs))
    case KStrings => Wrap(ReadList(ReadBlob, b), xs => Strings(xs))
  }

  /** Every size fits its 32-bit field. */
  predicate Sized(v: Value) {
    match v
    case Bytes(xs) => |xs| <= U32_MAX
    case Words(xs) => |xs| <= U32_MAX
    case Dwords(xs) => |xs| <= U32_MAX
    case Qwords(xs) => |xs| <= U32_MAX
    case Floats(xs) => |xs| <= U32_MAX
    case Strings(xs) => |xs| <= U32_MAX && forall x :: x in xs ==> |x| <= U32_MAX
    case _ => true
  }

  lemma ListAlone<T>(enc: T -> seq<Byte>, dec: Decoder<T>, xs: seq<T>)
    requires |xs| <= U32_MAX && forall x :: x in xs ==> Undoes(enc, dec, x)
    ensures ReadList(dec, List(enc, xs)) == Some((xs, []))
  {
    RoundTripList(enc, dec, xs, []);
    assert List(enc, xs) + [] == List(enc, xs);
  }

  lemma OneAlone<T>(enc: T -> seq<Byte>, dec: Decoder<T>, x: T)
    requires Undoes(enc, dec, x)
    ensures dec(enc(x)) == Some((x, []))
  {
    assert enc(x) + [] == enc(x);
    assert dec(enc(x) + []) == Some((x, []));
  }

  lemma RoundTripOne(x: Byte)
    ensures Undoes(One, Read8, x)
  {
    RoundTrip8(x);
    forall rest: seq<Byte>
      ensures Read8(One(x) + rest) == Some((x, rest))
    {
      assert ([x] + rest)[1..] == rest;
    }
  }

  /** Every value of every built-in type except the doubles comes back as it was. */
  lemma ValueRoundTrip(k: Kind, v: Value)
    requires Fits(k, v) && Sized(v)
    ensures Decode(k, Encode(v)) == Some(v)
  {
    hide List, ReadList, Read8, Read16, Read32, Read64, ReadBlob, Be16, Be32, Be64, Blob, Undoes, One;
    match v
    case OneByte(x) => { RoundTripOne(x); OneAlone(One, Read8, x); }
    case OneWord(x) => { RoundTrip16(x); OneAlone(Be16, Read16, x); }
    case OneDword(x) => { RoundTrip32(x); OneAlone(Be32, Read32, x); }
    case OneQword(x) => { RoundTrip64(x); OneAlone(Be64, Read64, x); }
    case OneFloat(x) => { RoundTrip32(x); OneAlone(Be32, Read32, x); }
    case Bytes(xs) => { forall x | x in xs ensures Undoes(One, Read8, x) { RoundTripOne(x); } ListAlone(One, Read8, xs); }
    case Words(xs) => { forall x | x in xs ensures Undoes(Be16, Read16, x) { RoundTrip16(x); } ListAlone(Be16, Read16, xs); }
    case Dwords(xs) => { forall x | x in xs ensures Undoes(Be32, Read32, x) { RoundTrip32(x); } ListAlone(Be32, Read32, xs); }
    case Qwords(xs) => { forall x | x in xs ensures Undoes(Be64, Read64, x) { RoundTrip64(x); } ListAlone(Be64, Read64, xs); }
    case Floats(xs) => { forall x | x in xs ensures Undoes(Be32, Read32, x) { RoundTrip32(x); } ListAlone(Be32, Read32, xs); }
    case Strings(xs) => { forall x | x in xs ensures Undoes(Blob, ReadBlob, x) { RoundTripBlob(x); } ListAlone(Blob, ReadBlob, xs); }
  }

  // ---------------------------------------------------------------- property maps

  /** A property that can be written and read back. */
  predicate Writable(p: Property) {
    && |p.id| <= U32_MAX && |p.tag| <= U32_MAX && |Encode(p.value)| <= U32_MAX
    && KindOf(p.tag).Some? && Fits(KindOf(p.tag).value, p.value) && Sized(p.value)
  }

  function EncodeProperty(p: Property): seq<Byte> {
    Blob(p.id) + Blob(p.tag) + Blob(Encode(p.value))
  }

  function ReadProperty(b: seq<Byte>): Option<(Property, seq<Byte>)> {
    var id := ReadBlob(b);
    if id.None? then None
    else
      var tag := ReadBlob(id.value.1);
      if tag.None? then None
      else
        var raw := ReadBlob(tag.value.1);
        if raw.None? || KindOf(tag.value.0).None? then None
        else
          var v := Decode(KindOf(tag.value.0).value, raw.value.0);
          if v.None? then None else Some((Property(id.value.0, tag.value.0, v.value), raw.value.1))
  }

  lemma RoundTripProperty(p: Property)
    requires Writable(p)
    ensures Undoes(EncodeProperty, ReadProperty, p)
  {
    hide Blob, ReadBlob, Encode, Decode, KindOf, Fits, Sized;
    var raw := Encode(p.value);
    RoundTripBlob(p.id);
    RoundTripBlob(p.tag);
    RoundTripBlob(raw);
    ValueRoundTrip(KindOf(p.tag).value, p.value);
    forall rest: seq<Byte>
      ensures ReadProperty(EncodeProperty(p) + rest) == Some((p, rest))
    {
      var b2 := Blob(raw) + rest;
      var b1 := Blob(p.tag) + b2;
      assert EncodeProperty(p) + rest == Blob(p.id) + b1;
      assert ReadBlob(Blob(p.id) + b1) == Some((p.id, b1));
      assert ReadBlob(Blob(p.tag) + b2) == Some((p.tag, b2));
      assert ReadBlob(Blob(raw) + rest) == Some((raw, rest));
    }
  }

  /** order lists the keys of m, each once: some order in which a hash map may be walked. */
  ghost predicate Walk(order: seq<Str>, m: Props) {
    NoDup(order) && forall x :: x in order <==> x in m
  }

  /** Entries carry their own key. */
  predicate Keyed(m: Props) {
    forall x :: x in m ==> m[x].id == x
  }

  function Pick(order: seq<Str>, m: Props): (r: seq<Property>)
    requires forall x :: x in order ==> x in m
    ensures |r| == |order| && forall i :: 0 <= i < |r| ==> r[i] == m[order[i]]
  {
    if order == [] then [] else
      var last := |order| - 1;
      assert order[last] in order;
      Pick(order[..last], m) + [m[order[last]]]
  }

  /** The entries that are read go into the map one by one; an id that is there already is not replaced. */
  function Gather(ps: seq<Property>): Props {
    if ps == [] then map[]
    else
      var p := ps[|ps| - 1];
      Emplace(Gather(ps[..|ps| - 1]), p.id, p.tag, p.value)
  }

  function EncodeMap(order: seq<Str>, m: Props): seq<Byte>
    requires forall x :: x in order ==> x in m
  {
    List(EncodeProperty, Pick(order, m))
  }

  function ReadMap(b: seq<Byte>): Option<(Props, seq<Byte>)> {
    var ps := ReadList(ReadProperty, b);
    if ps.None? then None else Some((Gather(ps.value.0), ps.value.1))
  }

  lemma {:induction false} GatherPicked(order: seq<Str>, m: Props)
    requires NoDup(order) && Keyed(m) && forall x :: x in order ==> x in m
    ensures forall x :: x in Gather(Pick(order, m)) <==> x in order
    ensures forall x :: x in order ==> Gather(Pick(order, m))[x] == m[x]
  {
    if order != [] {
      var last := |order| - 1;
      var front := order[..last];
      GatherPicked(front, m);
      PickLast(order, m);
      LastOf(order);
    }
  }

  lemma PickLast(order: seq<Str>, m: Props)
    requires order != [] && forall x :: x in order ==> x in m
    ensures var last := |order| - 1;
      (forall x :: x in order[..last] ==> x in m)
      && Gather(Pick(order, m)) == Emplace(Gather(Pick(order[..last], m)), m[order[last]].id, m[order[last]].tag, m[order[last]].value)
  {
    var last := |order| - 1;
    assert order[last] in order;
    assert Pick(order, m)[..last] == Pick(order[..last], m);
  }

  lemma LastOf<T>(q: seq<T>)
    requires q != [] && NoDup(q)
    ensures var last := |q| - 1;
      NoDup(q[..last]) && q[last] !in q[..last] && forall x :: x in q <==> x in q[..last] || x == q[last]
  {
    assert q == q[..|q| - 1] + [q[|q| - 1]];
  }

  /** A property map comes back whole in whatever order it was walked, and nothing after it is consumed. */
  lemma MapRoundTrip(order: seq<Str>, m: Props, rest: seq<Byte>)
    requires Walk(order, m) && Keyed(m) && |order| <= U32_MAX && forall x :: x in m ==> Writable(m[x])
    ensures ReadMap(EncodeMap(order, m) + rest) == Some((m, rest))
  {
    hide EncodeProperty, ReadProperty, Pick, Gather, List, ReadList, Writable;
    var ps := Pick(order, m);
    forall p | p in ps
      ensures Undoes(EncodeProperty, ReadProperty, p)
    {
      var i :| 0 <= i < |ps| && p == ps[i];
      assert order[i] in order;
      RoundTripProperty(p);
    }
    RoundTripList(EncodeProperty, ReadProperty, ps, rest);
    GatherPicked(order, m);
    assert Gather(ps) == m;
  }
}
