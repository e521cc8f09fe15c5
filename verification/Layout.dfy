/** The bytes on the wire, position by position: which field comes where, in how many bytes, and under which tag or name. */
module Layout {
  import opened Basics
  import opened Properties
  import opened Token
  import opened Slot
  import opened TokenMap
  import C = Codec
  import opened Packets
  import opened Handlers
  import Messages

  const WRAP: nat := 0x1_0000_0000

  // ---------------------------------------------------------------- strings and lists

  /** From position `at` on there are four bytes that say n, in u32 arithmetic. */
  predicate SizeAt(b: seq<Byte>, at: nat, n: nat) {
    at + 4 <= |b| && C.Number(b[at..at + 4]) == n % WRAP
  }

  /** From position `at` on there is s behind its size. */
  predicate StringAt(b: seq<Byte>, at: nat, s: seq<Byte>) {
    SizeAt(b, at, |s|) && at + 4 + |s| <= |b| && b[at + 4..at + 4 + |s|] == s
  }

  lemma SizeSays(before: seq<Byte>, n: nat, after: seq<Byte>)
    ensures SizeAt(before + C.Be32(C.Size32(n)) + after, |before|, n)
    ensures |before + C.Be32(C.Size32(n)) + after| == |before| + 4 + |after|
  {
    hide C.Be32, C.Number;
    C.Be32Says(C.Size32(n));
    var b := before + C.Be32(C.Size32(n)) + after;
    assert b[|before|..|before| + 4] == C.Be32(C.Size32(n));
  }

  /** A string is its size and then its bytes. */
  lemma StringSays(before: seq<Byte>, s: seq<Byte>, after: seq<Byte>)
    ensures StringAt(before + C.Blob(s) + after, |before|, s) && |C.Blob(s)| == 4 + |s|
  {
    hide SizeAt, C.Be32;
    SizeSays(before, |s|, s + after);
    var size := C.Be32(C.Size32(|s|));
    assert before + C.Blob(s) + after == before + size + (s + after);
    assert (before + size + (s + after))[|before| + 4..|before| + 4 + |s|] == s;
  }

  /** How many bytes i elements of w bytes take. */
  function Offset(w: nat, i: nat): nat {
    if i == 0 then 0 else Offset(w, i - 1) + w
  }

  lemma {:induction false} OffsetIs(w: nat, i: nat)
    ensures Offset(w, i) == w * i
  {
    if i > 0 {
      OffsetIs(w, i - 1);
      assert w * i == w * (i - 1) + w;
    }
  }

  lemma {:induction false} OffsetGrows(w: nat, i: nat, n: nat)
    requires i < n
    ensures Offset(w, i) + w <= Offset(w, n)
  {
    if i < n - 1 {
      OffsetGrows(w, i, n - 1);
    }
  }

  /** Elements of one width lie one behind the other, in order. */
  lemma {:induction false} ElementsLie<T>(enc: T -> seq<Byte>, w: nat, xs: seq<T>, i: nat)
    requires i < |xs| && forall x :: x in xs ==> |enc(x)| == w
    ensures |C.EncodeAll(enc, xs)| == Offset(w, |xs|) && Offset(w, i) + w <= Offset(w, |xs|)
    ensures C.EncodeAll(enc, xs)[Offset(w, i)..Offset(w, i) + w] == enc(xs[i])
  {
    var last: nat := |xs| - 1;
    var front := C.EncodeAll(enc, xs[..last]);
    OffsetGrows(w, i, |xs|);
    AllLong(enc, w, xs);
    AllLong(enc, w, xs[..last]);
    if i < last {
      ElementsLie(enc, w, xs[..last], i);
      assert (front + enc(xs[last]))[Offset(w, i)..Offset(w, i) + w] == front[Offset(w, i)..Offset(w, i) + w];
    } else {
      assert (front + enc(xs[last]))[|front|..|front| + w] == enc(xs[last]);
    }
  }

  lemma {:induction false} AllLong<T>(enc: T -> seq<Byte>, w: nat, xs: seq<T>)
    requires forall x :: x in xs ==> |enc(x)| == w
    ensures |C.EncodeAll(enc, xs)| == Offset(w, |xs|)
  {
    if xs != [] {
      var last := |xs| - 1;
      assert xs[last] in xs;
      assert forall x :: x in xs[..last] ==> x in xs;
      AllLong(enc, w, xs[..last]);
    }
  }

  // ---------------------------------------------------------------- values and their tags

  /** The bits of one number of the value. */
  function Width(v: Value): nat {
    match v
    case OneByte(_) => 8
    case OneWord(_) => 16
    case OneDword(_) => 32
    case OneQword(_) => 64
    case OneFloat(_) => 32
    case Bytes(_) => 8
    case Words(_) => 16
    case Dwords(_) => 32
    case Qwords(_) => 64
    case Floats(_) => 32
    case Strings(_) => 0
  }

  predicate IsList(v: Value) {
    v.Bytes? || v.Words? || v.Dwords? || v.Qwords? || v.Floats?
  }

  predicate IsFloat(v: Value) {
    v.OneFloat? || v.Floats?
  }

  /** The numbers in a value that is not a list of strings. */
  function Numbers(v: Value): seq<nat> {
    match v
    case OneByte(x) => [x]
    case OneWord(x) => [x]
    case OneDword(x) => [x]
    case OneQword(x) => [x]
    case OneFloat(x) => [x]
    case Bytes(xs) => xs
    case Words(xs) => xs
    case Dwords(xs) => xs
    case Qwords(xs) => xs
    case Floats(xs) => xs
    case Strings(_) => []
  }

  /** A number takes its width in bytes, the most significant first. */
  lemma NumberSays(v: Value)
    requires !IsList(v) && !v.Strings?
    ensures |C.Encode(v)| == Width(v) / 8 && C.Number(C.Encode(v)) == Numbers(v)[0]
  {
    hide C.Be16, C.Be32, C.Be64, C.Number;
    match v
    case OneByte(x) => OneSays(x);
    case OneWord(x) => C.Be16Says(x);
    case OneDword(x) => C.Be32Says(x);
    case OneQword(x) => C.Be64Says(x);
    case OneFloat(x) => C.Be32Says(x);
  }

  lemma OneSays(x: Byte)
    ensures |C.One(x)| == 1 && C.Number(C.One(x)) == x
  {
    assert [x] == [] + [x];
    C.NumberLast([], x);
  }

  /** Element i of a list behind its count. */
  lemma ListSays<T>(enc: T -> seq<Byte>, w: nat, xs: seq<T>, i: nat)
    requires forall x :: x in xs ==> |enc(x)| == w
    ensures var b := C.List(enc, xs);
      && SizeAt(b, 0, |xs|) && |b| == 4 + Offset(w, |xs|)
      && (i < |xs| ==> 4 + Offset(w, i) + w <= |b| && b[4 + Offset(w, i)..4 + Offset(w, i) + w] == enc(xs[i]))
  {
    hide *;
    var size, body := C.Be32(C.Size32(|xs|)), C.EncodeAll(enc, xs);
    ListIs(enc, xs);
    SizeSays([], |xs|, body);
    assert [] + size + body == size + body;
    AllLong(enc, w, xs);
    if i < |xs| {
      ElementsLie(enc, w, xs, i);
      Behind(size, body, Offset(w, i), w);
    }
  }

  lemma ListIs<T>(enc: T -> seq<Byte>, xs: seq<T>)
    ensures C.List(enc, xs) == C.Be32(C.Size32(|xs|)) + C.EncodeAll(enc, xs) && |C.Be32(C.Size32(|xs|))| == 4
  {
  }

  lemma Behind(a: seq<Byte>, b: seq<Byte>, at: nat, n: nat)
    requires at + n <= |b|
    ensures (a + b)[|a| + at..|a| + at + n] == b[at..at + n]
  {
  }

  /** A list of numbers is its count in four bytes and then the numbers, each in its width. */
  lemma NumbersSay(v: Value, i: nat)
    requires IsList(v)
    ensures var b, w := C.Encode(v), Width(v) / 8;
      && SizeAt(b, 0, |Numbers(v)|) && |b| == 4 + Offset(w, |Numbers(v)|)
      && (i < |Numbers(v)| ==> 4 + Offset(w, i) + w <= |b| && C.Number(b[4 + Offset(w, i)..4 + Offset(w, i) + w]) == Numbers(v)[i])
  {
    hide C.Be16, C.Be32, C.Be64, C.One, C.Number, C.List, SizeAt, Offset;
    match v
    case Bytes(xs) => { AllOnes(); ListSays(C.One, 1, xs, i); }
    case Words(xs) => { All16(); ListSays(C.Be16, 2, xs, i); }
    case Dwords(xs) => { All32(); ListSays(C.Be32, 4, xs, i); }
    case Qwords(xs) => { All64(); ListSays(C.Be64, 8, xs, i); }
    case Floats(xs) => { All32(); ListSays(C.Be32, 4, xs, i); }
  }

  lemma AllOnes()
    ensures forall x: Byte :: |C.One(x)| == 1 && C.Number(C.One(x)) == x
  {
    forall x: Byte
      ensures |C.One(x)| == 1 && C.Number(C.One(x)) == x
    {
      OneSays(x);
    }
  }

  lemma All16()
    ensures forall x: U16 :: |C.Be16(x)| == 2 && C.Number(C.Be16(x)) == x
  {
    forall x: U16
      ensures |C.Be16(x)| == 2 && C.Number(C.Be16(x)) == x
    {
      C.Be16Says(x);
    }
  }

  lemma All32()
    ensures forall x: U32 :: |C.Be32(x)| == 4 && C.Number(C.Be32(x)) == x
  {
    forall x: U32
      ensures |C.Be32(x)| == 4 && C.Number(C.Be32(x)) == x
    {
      C.Be32Says(x);
    }
  }

  lemma All64()
    ensures forall x: U64 :: |C.Be64(x)| == 8 && C.Number(C.Be64(x)) == x
  {
    forall x: U64
      ensures |C.Be64(x)| == 8 && C.Number(C.Be64(x)) == x
    {
      C.Be64Says(x);
    }
  }

  /** How many bytes strings take, each behind its size. */
  function StringsLength(ss: seq<Str>): nat {
    if ss == [] then 0 else StringsLength(ss[..|ss| - 1]) + 4 + |ss[|ss| - 1]|
  }

  lemma {:induction false} BlobsLength(ss: seq<Str>)
    ensures |C.EncodeAll(C.Blob, ss)| == StringsLength(ss)
  {
    hide C.Blob;
    if ss != [] {
      BlobsLength(ss[..|ss| - 1]);
      StringSays([], ss[|ss| - 1], []);
    }
  }

  lemma {:induction false} EncodeSplit<T>(enc: T -> seq<Byte>, xs: seq<T>, i: nat)
    requires i < |xs|
    ensures C.EncodeAll(enc, xs) == C.EncodeAll(enc, xs[..i]) + enc(xs[i]) + C.EncodeAll(enc, xs[i + 1..])
    decreases |xs|
  {
    var last := |xs| - 1;
    if i < last {
      EncodeSplit(enc, xs[..last], i);
      assert xs[..last][..i] == xs[..i] && xs[..last][i + 1..] == xs[i + 1..][..last - i - 1];
      assert xs[i + 1..][last - i - 1] == xs[last];
    } else {
      assert xs[i + 1..] == [];
    }
  }

  lemma StringsAre(ss: seq<Str>)
    ensures C.Encode(Strings(ss)) == C.Be32(C.Size32(|ss|)) + C.EncodeAll(C.Blob, ss) && |C.Be32(C.Size32(|ss|))| == 4
  {
  }

  /** A list of strings is its count and then the strings, each behind its size. */
  lemma StringsSay(ss: seq<Str>, i: nat)
    ensures var b := C.Encode(Strings(ss));
      SizeAt(b, 0, |ss|) && |b| == 4 + StringsLength(ss) && (i < |ss| ==> StringAt(b, 4 + StringsLength(ss[..i]), ss[i]))
  {
    hide C.Be32, C.Blob, C.Encode, C.EncodeAll, C.Size32, C.Number, SizeAt, StringAt, StringsLength;
    var size, body := C.Be32(C.Size32(|ss|)), C.EncodeAll(C.Blob, ss);
    StringsAre(ss);
    SizeSays([], |ss|, body);
    assert [] + size + body == size + body;
    BlobsLength(ss);
    if i < |ss| {
      StringLies(ss, i, size);
    }
  }

  lemma StringLies(ss: seq<Str>, i: nat, size: seq<Byte>)
    requires i < |ss|
    ensures StringAt(size + C.EncodeAll(C.Blob, ss), |size| + StringsLength(ss[..i]), ss[i])
  {
    hide C.Blob, C.EncodeAll, C.Number, SizeAt, StringAt, StringsLength;
    EncodeSplit(C.Blob, ss, i);
    BlobsLength(ss[..i]);
    var before, after := C.EncodeAll(C.Blob, ss[..i]), C.EncodeAll(C.Blob, ss[i + 1..]);
    StringSays(size + before, ss[i], after);
    assert size + before + C.Blob(ss[i]) + after == size + (before + C.Blob(ss[i]) + after);
  }

  /** The bytes of the tags. */
  lemma Bytes1()
    ensures Ascii("$u8") == [36, 117, 56]
    ensures Ascii("$s8") == [36, 115, 56]
    ensures Ascii("$u16") == [36, 117, 49, 54]
    ensures Ascii("$s16") == [36, 115, 49, 54]
    ensures Ascii("$u32") == [36, 117, 51, 50]
    ensures Ascii("$s32") == [36, 115, 51, 50]
    ensures Ascii("$u64") == [36, 117, 54, 52]
    ensures Ascii("$s64") == [36, 115, 54, 52]
    ensures Ascii("$float") == [36, 102, 108, 111, 97, 116]
  {
  }

  lemma Bytes2()
    ensures Ascii("#u8") == [35, 117, 56]
    ensures Ascii("#s8") == [35, 115, 56]
    ensures Ascii("#u16") == [35, 117, 49, 54]
    ensures Ascii("#s16") == [35, 115, 49, 54]
    ensures Ascii("#u32") == [35, 117, 51, 50]
    ensures Ascii("#s32") == [35, 115, 51, 50]
    ensures Ascii("#u64") == [35, 117, 54, 52]
    ensures Ascii("#s64") == [35, 115, 54, 52]
    ensures Ascii("#float") == [35, 102, 108, 111, 97, 116]
    ensures Ascii("Vector<String>") == [86, 101, 99, 116, 111, 114, 60, 83, 116, 114, 105, 110, 103, 62]
  {
  }

  lemma NumberKinds()
    ensures C.KindOf(Ascii("$u8")) == C.KindOf(Ascii("$s8")) == Some(C.KByte)
    ensures C.KindOf(Ascii("$u16")) == C.KindOf(Ascii("$s16")) == Some(C.KWord)
    ensures C.KindOf(Ascii("$u32")) == C.KindOf(Ascii("$s32")) == Some(C.KDword)
    ensures C.KindOf(Ascii("$u64")) == C.KindOf(Ascii("$s64")) == Some(C.KQword)
  {
    hide Ascii;
    Bytes1();
    Bytes2();
  }

  lemma ByteListKinds()
    ensures C.KindOf(Ascii("#u8")) == C.KindOf(Ascii("#s8")) == Some(C.KBytes)
    ensures C.KindOf(Ascii("#u16")) == C.KindOf(Ascii("#s16")) == Some(C.KWords)
  {
    hide Ascii;
    Bytes1();
    Bytes2();
  }

  lemma DwordListKinds()
    ensures C.KindOf(Ascii("#u32")) == C.KindOf(Ascii("#s32")) == Some(C.KDwords)
  {
    hide Ascii;
    Bytes1();
    Bytes2();
  }

  lemma QwordListKinds()
    ensures C.KindOf(Ascii("#u64")) == C.KindOf(Ascii("#s64")) == Some(C.KQwords)
  {
    hide Ascii;
    Bytes1();
    Bytes2();
  }

  lemma OtherKinds()
    ensures C.KindOf(Ascii("$float")) == Some(C.KFloat) && C.KindOf(Ascii("#float")) == Some(C.KFloats)
    ensures C.KindOf(Ascii("Vector<String>")) == Some(C.KStrings)
  {
    hide Ascii;
    Bytes1();
    Bytes2();
  }

  /** The tag of numbers of a width: "$u8", "#s64", and so on; '$' for one and '#' for a list. */
  function Tag(mark: char, sign: char, bits: nat): string {
    if mark == '$' then
      if sign == 'u' then if bits == 8 then "$u8" else if bits == 16 then "$u16" else if bits == 32 then "$u32" else "$u64"
      else if bits == 8 then "$s8" else if bits == 16 then "$s16" else if bits == 32 then "$s32" else "$s64"
    else
      if sign == 'u' then if bits == 8 then "#u8" else if bits == 16 then "#u16" else if bits == 32 then "#u32" else "#u64"
      else if bits == 8 then "#s8" else if bits == 16 then "#s16" else if bits == 32 then "#s32" else "#s64"
  }

  /** A tag of numbers selects the decoder for exactly the values of that width, one or a list, that are not floats. */
  lemma TagSays(mark: char, sign: char, bits: nat, v: Value)
    requires mark in {'$', '#'} && sign in {'u', 's'} && bits in {8, 16, 32, 64}
    ensures var k := C.KindOf(Ascii(Tag(mark, sign, bits)));
      k.Some? && (C.Fits(k.value, v) <==> !v.Strings? && !IsFloat(v) && Width(v) == bits && (IsList(v) <==> mark == '#'))
  {
    hide Ascii, C.KindOf;
    NumberKinds();
    ByteListKinds();
    DwordListKinds();
    QwordListKinds();
  }

  /** The tags of floats, and of lists of strings. */
  lemma TagSaysFloat(v: Value)
    ensures C.KindOf(Ascii("$float")).Some? && (C.Fits(C.KindOf(Ascii("$float")).value, v) <==> IsFloat(v) && !IsList(v))
    ensures C.KindOf(Ascii("#float")).Some? && (C.Fits(C.KindOf(Ascii("#float")).value, v) <==> IsFloat(v) && IsList(v))
    ensures C.KindOf(Ascii("Vector<String>")).Some? && (C.Fits(C.KindOf(Ascii("Vector<String>")).value, v) <==> v.Strings?)
  {
    hide Ascii, C.KindOf;
    OtherKinds();
  }

  // ---------------------------------------------------------------- property maps

  /** A property is its id, its tag and its value, each behind its size, in this order. */
  lemma PropertySays(before: seq<Byte>, p: Property, after: seq<Byte>)
    ensures var b := before + C.EncodeProperty(p) + after;
      var tag := |before| + 4 + |p.id|;
      var raw := tag + 4 + |p.tag|;
      && StringAt(b, |before|, p.id) && StringAt(b, tag, p.tag) && StringAt(b, raw, C.Encode(p.value))
      && |C.EncodeProperty(p)| == 12 + |p.id| + |p.tag| + |C.Encode(p.value)|
  {
    hide StringAt, C.Blob, C.Encode;
    var id, tag, raw := C.Blob(p.id), C.Blob(p.tag), C.Blob(C.Encode(p.value));
    StringSays(before, p.id, tag + raw + after);
    StringSays(before + id, p.tag, raw + after);
    StringSays(before + id + tag, C.Encode(p.value), after);
    assert before + id + (tag + raw + after) == before + (id + tag + raw) + after;
    assert before + id + tag + (raw + after) == before + (id + tag + raw) + after;
    assert before + id + tag + raw + after == before + (id + tag + raw) + after;
  }

  /** A map is its count and then its entries in the order of the walk. */
  lemma MapSays(order: seq<Str>, m: Props, i: nat)
    requires i < |order| && forall x :: x in order ==> x in m
    ensures SizeAt(C.EncodeMap(order, m), 0, |order|) && forall x :: x in order[..i] || x in order[i + 1..] ==> x in m
    ensures C.EncodeMap(order, m) == C.EncodeMap(order, m)[..4] + C.EncodeAll(C.EncodeProperty, C.Pick(order[..i], m))
                                     + C.EncodeProperty(m[order[i]]) + C.EncodeAll(C.EncodeProperty, C.Pick(order[i + 1..], m))
  {
    hide *;
    var ps := C.Pick(order, m);
    var size, body := C.Be32(C.Size32(|ps|)), C.EncodeAll(C.EncodeProperty, ps);
    SizeSays([], |ps|, body);
    assert [] + size + body == size + body;
    MapIs(order, m);
    EncodeSplit(C.EncodeProperty, ps, i);
    PickParts(order, m, i);
    Prepended(size, C.EncodeAll(C.EncodeProperty, ps[..i]), C.EncodeProperty(ps[i]), C.EncodeAll(C.EncodeProperty, ps[i + 1..]));
  }

  lemma MapIs(order: seq<Str>, m: Props)
    requires forall x :: x in order ==> x in m
    ensures var ps := C.Pick(order, m);
      |ps| == |order| && C.EncodeMap(order, m) == C.Be32(C.Size32(|ps|)) + C.EncodeAll(C.EncodeProperty, ps) && |C.Be32(C.Size32(|ps|))| == 4
  {
    hide C.EncodeProperty, C.EncodeAll, C.Pick;
  }

  lemma PickParts(order: seq<Str>, m: Props, i: nat)
    requires i < |order| && forall x :: x in order ==> x in m
    ensures forall x :: x in order[..i] || x in order[i + 1..] ==> x in m
    ensures C.Pick(order, m)[..i] == C.Pick(order[..i], m) && C.Pick(order, m)[i + 1..] == C.Pick(order[i + 1..], m)
    ensures C.Pick(order, m)[i] == m[order[i]]
  {
    hide C.Pick;
    assert order[i] in order;
  }

  lemma Prepended(a: seq<Byte>, b: seq<Byte>, c: seq<Byte>, d: seq<Byte>)
    ensures a + (b + c + d) == a + b + c + d && (a + (b + c + d))[..|a|] == a
  {
  }

  // ---------------------------------------------------------------- packets

  /** A packet is its type in two bytes, the size of its payload in four, and the payload: an id; or the name of a token and
      then a request number, the marshalled token, or the name of a condition variable. */
  lemma PacketSays(p: CorePacket)
    ensures var b := EncodePacket(p);
      && |b| >= 6 && SizeAt(b, 2, |b| - 6)
      && C.Number(b[..2]) == (match p case EdgeHandshake(_) => 1 case ClusterHandshake(_) => 2 case RequestToken(_, _) => 3
                                      case GiveToken(_, _) => 4 case Signal(_, _) => 5)
      && match p
         case EdgeHandshake(id) => |b| == 10 && C.Number(b[6..]) == id
         case ClusterHandshake(id) => |b| == 10 && C.Number(b[6..]) == id
         case RequestToken(t, num) => StringAt(b, 6, t) && |b| == 14 + |t| && C.Number(b[10 + |t|..]) == num
         case GiveToken(t, data) => StringAt(b, 6, t) && StringAt(b, 10 + |t|, data) && |b| == 14 + |t| + |data|
         case Signal(t, v) => StringAt(b, 6, t) && StringAt(b, 10 + |t|, v) && |b| == 14 + |t| + |v|
  {
    hide C.Be16, C.Be32, C.Blob, C.Number, SizeAt, StringAt;
    var head := HeaderBytes(Header(TypeOf(p), C.Size32(|EncodePayload(p)|)));
    var b := EncodePacket(p);
    HeaderSays(p);
    match p
    case EdgeHandshake(id) => LastWord(head, id);
    case ClusterHandshake(id) => LastWord(head, id);
    case RequestToken(t, num) => {
      StringSays(head, t, C.Be32(num));
      LastWord(head + C.Blob(t), num);
      assert head + C.Blob(t) + C.Be32(num) == b;
    }
    case GiveToken(t, data) => TwoStrings(head, t, data);
    case Signal(t, v) => TwoStrings(head, t, v);
  }

  lemma LastWord(before: seq<Byte>, x: U32)
    ensures (before + C.Be32(x))[|before|..] == C.Be32(x) && |C.Be32(x)| == 4 && C.Number(C.Be32(x)) == x
  {
    hide C.Be32, C.Number;
    C.Be32Says(x);
  }

  lemma TwoStrings(before: seq<Byte>, s: seq<Byte>, t: seq<Byte>)
    ensures var b := before + (C.Blob(s) + C.Blob(t));
      StringAt(b, |before|, s) && StringAt(b, |before| + 4 + |s|, t) && |b| == |before| + 8 + |s| + |t|
  {
    hide StringAt, C.Blob;
    StringSays(before, s, C.Blob(t));
    StringSays(before + C.Blob(s), t, []);
    assert before + C.Blob(s) + C.Blob(t) == before + (C.Blob(s) + C.Blob(t)) == before + C.Blob(s) + C.Blob(t) + [];
  }

  lemma HeaderSays(p: CorePacket)
    ensures var b := EncodePacket(p); |b| >= 6 && C.Number(b[..2]) == TypeOf(p) && SizeAt(b, 2, |b| - 6)
  {
    hide EncodePayload, C.Be16, C.Be32, C.Number, SizeAt;
    var payload := EncodePayload(p);
    var typ, size := C.Be16(TypeOf(p)), C.Be32(C.Size32(|payload|));
    C.Be16Says(TypeOf(p));
    SizeSays(typ, |payload|, payload);
    assert (typ + size + payload)[..2] == typ;
  }

  /** The receiver reads type and size from where they were written. */
  lemma HeaderRead(b: seq<Byte>)
    requires |b| >= HEADER_SIZE
    ensures ParseHeader(b).typ == C.Number(b[..2]) && ParseHeader(b).payloadSize == C.Number(b[2..6])
  {
    hide C.Number;
    C.Read16Says(b);
    C.Word32Says(b[2..6]);
  }

  /** A type that is not one of the five makes no packet. */
  lemma UnknownType(h: Header, buffer: seq<Byte>)
    requires h.typ == 0 || h.typ > 5
    ensures Factory(h, buffer).None?
  {
  }

  /** Of the entries with one id that are read, the map has the first. */
  lemma {:induction false} FirstWins(ps: seq<Property>, i: nat)
    requires i < |ps| && forall j :: 0 <= j < i ==> ps[j].id != ps[i].id
    ensures ps[i].id in C.Gather(ps) && C.Gather(ps)[ps[i].id] == ps[i]
  {
    var last := |ps| - 1;
    if i < last {
      FirstWins(ps[..last], i);
    } else {
      NothingElse(ps[..last]);
    }
  }

  /** The map has nothing that was not read. */
  lemma {:induction false} NothingElse(ps: seq<Property>)
    ensures forall x :: x in C.Gather(ps) ==> exists j :: 0 <= j < |ps| && ps[j].id == x
  {
    if ps != [] {
      var front := ps[..|ps| - 1];
      NothingElse(front);
      forall x | x in C.Gather(ps)
        ensures exists j :: 0 <= j < |ps| && ps[j].id == x
      {
        if x in C.Gather(front) {
          var j :| 0 <= j < |front| && front[j].id == x;
          assert ps[j].id == x;
        } else {
          assert ps[|ps| - 1].id == x;
        }
      }
    }
  }

  // ---------------------------------------------------------------- tokens in maps and messages

  /** Saving adds entries under the reserved names, or under the names of variables, and leaves alone what is there. */
  lemma SavingKeeps(m: Props, p: Priv, names: seq<Str>, vars: Props)
    ensures SaveToken(m, p).Keys == m.Keys + {Ascii("___token_ln"), Ascii("___token_queue")}
    ensures SaveMonitors(m, names).Keys == m.Keys + {Ascii("monitors")} && SaveVars(m, vars).Keys == m.Keys + vars.Keys
    ensures forall x :: x in m ==> SaveToken(m, p)[x] == m[x] && SaveMonitors(m, names)[x] == m[x] && SaveVars(m, vars)[x] == m[x]
    ensures forall x :: x in vars && x !in m ==> SaveVars(m, vars)[x] == vars[x]
  {
    hide Ascii;
  }

  /** Loading gives a bound variable the value that came, if one came, and binds nothing new. */
  lemma LoadingMeans(bound: Props, m: Props)
    ensures LoadProps(bound, m).Keys == bound.Keys
    ensures forall x :: x in bound && x in m ==> LoadProps(bound, m)[x] == m[x]
    ensures forall x :: x in bound && x !in m ==> LoadProps(bound, m)[x] == bound[x]
  {
  }

  /** Under which names, and with which tags, the map of a token carries LN, Q and the monitor set. */
  lemma TokenSays(t: TokenId, d: TokenData, names: seq<Str>)
    requires Packable(t, d, names)
    ensures var m := Pack(t, d, names);
      && Ascii("___token_ln") in m && m[Ascii("___token_ln")] == Property(Ascii("___token_ln"), Ascii("#u32"), Dwords(d.ln))
      && Ascii("___token_queue") in m && m[Ascii("___token_queue")].tag == Ascii("#u32") && m[Ascii("___token_queue")].value.Dwords?
      && m[Ascii("___token_queue")].value.ds == d.queue
      && (t == System ==> Ascii("monitors") in m && m[Ascii("monitors")] == Property(Ascii("monitors"), Ascii("Vector<String>"), Strings(names)))
      && (t != System ==> forall x :: x in d.props ==> x in m && m[x] == d.props[x])
  {
    hide Ascii, Enumerates;
    NamesDiffer();
    assert forall i: nat :: i < |d.queue| ==> d.queue[i] in d.queue;
    assert Narrow(d.queue) == d.queue;
  }

  /** How a message names its token, and which packet it becomes. */
  lemma MessageSays(from: NodeId, w: Wire, order: seq<Str>)
    requires w.GiveToken? ==> forall x :: x in order ==> x in w.data
    ensures var p := Messages.ToPacket(from, w, order);
      match w
      case ClusterHandshake => p.ClusterHandshake? && p.id == from % WRAP
      case RequestToken(t, num) =>
        p.RequestToken? && p.sequenceId == num && p.tokenId == if t == System then Ascii("___system_token") else t.name
      case GiveToken(t, m) =>
        p.GiveToken? && p.tokenId == (if t == System then Ascii("___system_token") else t.name) && SizeAt(p.data, 0, |order|)
  {
    hide Ascii, C.EncodeProperty, C.EncodeAll, C.Be32, C.Number, SizeAt;
    if w.GiveToken? {
      CountSays(order, w.data);
    }
  }

  lemma CountSays(order: seq<Str>, m: Props)
    requires forall x :: x in order ==> x in m
    ensures SizeAt(C.EncodeMap(order, m), 0, |order|)
  {
    hide *;
    var ps := C.Pick(order, m);
    MapIs(order, m);
    SizeSays([], |ps|, C.EncodeAll(C.EncodeProperty, ps));
    assert [] + C.Be32(C.Size32(|ps|)) == C.Be32(C.Size32(|ps|));
  }
}
