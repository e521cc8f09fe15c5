/** A token's journey in bytes: save, marshall, unmarshall, load. */
module Handoff {
  import opened Basics
  import opened Properties
  import opened Token
  import opened Slot
  import opened TokenMap
  import opened TokenRecord
  import opened Codec
  import opened Marshaller

  /** Every part of the token fits the size fields of the wire format. */
  predicate Carriable(t: TokenId, d: TokenData, names: seq<Str>) {
    && |d.ln| < 0x4000_0000 - 1 && |d.queue| < 0x4000_0000 - 1 && |d.props| < U32_MAX - 3
    && (t == System ==> Writable(Property(MONITORS_NAME, STRINGS_TAG, Strings(names))))
    && Keyed(d.props) && forall x :: x in d.props ==> Writable(d.props[x])
  }

  lemma {:induction false} DwordsLength(xs: seq<U32>)
    ensures |EncodeAll(Be32, xs)| == 4 * |xs|
  {
    if xs != [] {
      DwordsLength(xs[..|xs| - 1]);
    }
  }

  lemma DwordsWritable(id: Str, xs: seq<U32>)
    requires |id| <= U32_MAX && |xs| < 0x4000_0000 - 1
    ensures Writable(Property(id, U32S_TAG, Dwords(xs)))
  {
    DwordsLength(xs);
    TagOfDwords();
  }

  lemma TagOfDwords()
    ensures KindOf(U32S_TAG) == Some(KDwords) && |U32S_TAG| == 4
    ensures KindOf(STRINGS_TAG) == Some(KStrings)
  {
    assert U32S_TAG[0] == Code('#') && U32S_TAG[1] == Code('u') && U32S_TAG[2] == Code('3');
    assert |STRINGS_TAG| == 14;
    assert Ascii("$u32")[0] == Code('$') && Ascii("$s32")[0] == Code('$');
    assert Ascii("$u16")[0] == Code('$') && Ascii("$s16")[0] == Code('$');
    assert Ascii("$u64")[0] == Code('$') && Ascii("$s64")[0] == Code('$');
    assert Ascii("#u16")[2] == Code('1') && Ascii("#s16")[1] == Code('s');
    assert |Ascii("$u8")| == 3 && |Ascii("$s8")| == 3 && |Ascii("#u8")| == 3 && |Ascii("#s8")| == 3 && |Ascii("$float")| == 6;
  }

  lemma PackWritable(t: TokenId, d: TokenData, names: seq<Str>)
    requires Packable(t, d, names) && Carriable(t, d, names)
    ensures var m := Pack(t, d, names);
      Keyed(m) && |m| <= U32_MAX && forall x :: x in m ==> Writable(m[x])
  {
    hide Writable, Plain, Ascii, Narrow, Pack, Packable, Carriable;
    forall x | x in Pack(t, d, names)
      ensures Pack(t, d, names)[x].id == x && Writable(Pack(t, d, names)[x])
    {
      EntryWritable(t, d, names, x);
    }
    PackFits(t, d, names);
  }

  lemma EntryWritable(t: TokenId, d: TokenData, names: seq<Str>, x: Str)
    requires Packable(t, d, names) && Carriable(t, d, names) && x in Pack(t, d, names)
    ensures Pack(t, d, names)[x].id == x && Writable(Pack(t, d, names)[x])
  {
    hide Writable, Plain, Ascii, Narrow;
    NamesDiffer();
    DwordsWritable(LN_NAME, d.ln);
    NarrowLength(d.queue);
    DwordsWritable(QUEUE_NAME, Narrow(d.queue));
    assert x in d.props || x == LN_NAME || x == QUEUE_NAME || (x == MONITORS_NAME && t == System);
  }

  lemma PackFits(t: TokenId, d: TokenData, names: seq<Str>)
    requires Packable(t, d, names) && Carriable(t, d, names)
    ensures |Pack(t, d, names)| <= U32_MAX
  {
    hide Pack;
    PackSize(t, d, names);
  }

  lemma NarrowLength(q: seq<NodeId>)
    ensures |Narrow(q)| == |q| && |LN_NAME| <= U32_MAX && |QUEUE_NAME| <= U32_MAX
  {
  }

  lemma PackSize(t: TokenId, d: TokenData, names: seq<Str>)
    ensures |Pack(t, d, names)| <= |d.props| + 3
  {
    hide Ascii, Narrow;
    var m := Pack(t, d, names);
    var reserved := {LN_NAME, QUEUE_NAME, MONITORS_NAME};
    assert m.Keys <= reserved + d.props.Keys;
    SubsetSize(m.Keys, reserved + d.props.Keys);
    AtMostThree(LN_NAME, QUEUE_NAME, MONITORS_NAME);
    UnionSize(reserved, d.props.Keys);
  }

  lemma AtMostThree(a: Str, b: Str, c: Str)
    ensures |{a, b, c}| <= 3
  {
    SubsetSize({a, b}, {a, b, c});
    assert {a, b, c} == {a, b} + {c};
    UnionSize({a, b}, {c});
  }

  lemma UnionSize<T>(a: set<T>, b: set<T>)
    ensures |a + b| <= |a| + |b|
  {
    assert a + b == a + (b - a);
    SubsetSize(b - a, b);
  }

  /** What arrives is what was sent, in whatever order the map was walked. */
  lemma TokenRoundTrip(t: TokenId, d: TokenData, names: seq<Str>, order: seq<Str>)
    requires Packable(t, d, names) && Carriable(t, d, names)
    requires Walk(order, Pack(t, d, names)) && |order| == |Pack(t, d, names)|
    ensures ReadMap(EncodeMap(order, Pack(t, d, names))) == Some((Pack(t, d, names), []))
    ensures var m := Pack(t, d, names);
      && Typed(m) && HasToken(m) && (t == System ==> MONITORS_NAME in m && m[MONITORS_NAME].value.Strings?)
      && Unpack(t, m) == d
  {
    hide EncodeMap, ReadMap, Pack, Unpack, Writable, Keyed;
    var m := Pack(t, d, names);
    PackWritable(t, d, names);
    PackRoundTrip(t, d, names);
    MapRoundTrip(order, m, []);
    assert EncodeMap(order, m) + [] == EncodeMap(order, m);
  }

  ghost function TokenOf(o: TokenPrivateData, system: bool): TokenData
    reads o, o.ln
  {
    TokenData(o.ln[..], o.queue, if system then o.monitors else {}, map[])
  }

  function Kin(system: bool): TokenId {
    if system then System else Monitor([])
  }

  /** The bytes are a property map that carries the token d. */
  ghost predicate Carrying(bytes: seq<Byte>, t: TokenId, d: TokenData) {
    var r := ReadMap(bytes);
    r.Some? && r.value.1 == [] && var m := r.value.0;
      && Typed(m) && HasToken(m) && (t == System ==> MONITORS_NAME in m && m[MONITORS_NAME].value.Strings?)
      && Unpack(t, m) == d
  }

  /** The sender's half: saveProperties and marshallMap. */
  method Ship(from: TokenPrivateData, system: bool) returns (bytes: seq<Byte>)
    requires from.Valid() && from.nodes < 0x4000_0000 - 1 && System !in from.monitors && |from.queue| < 0x4000_0000 - 1
    requires system ==> forall names :: Enumerates(names, from.monitors) ==> Writable(Property(MONITORS_NAME, STRINGS_TAG, Strings(names)))
    ensures Carrying(bytes, Kin(system), TokenOf(from, system))
  {
    hide Writable, SaveToken, SaveMonitors, KindOf, Fits, EncodeMap, ReadMap, TokenPrivateData.Value, Unpack, Typed, HasToken;
    var m, names := from.SaveProperties(map[], system);
    ghost var t := Kin(system);
    ghost var d := TokenOf(from, system);
    SavedIsPacked(from.Value(), t, d, names, m) by { ValueParts(from); }
    PackWritable(t, d, names);
    WritableFits(m);
    ghost var order;
    bytes, order := MarshallMap(m);
    TokenRoundTrip(t, d, names, order);
  }

  /** sendToken at one end and packetGiveToken at the other, on the records themselves. */
  method Carry(from: TokenPrivateData, to: TokenPrivateData, system: bool)
    requires from.Valid() && to.Valid() && from.nodes == to.nodes < 0x4000_0000 - 1 && System !in from.monitors
    requires from != to && from.ln != to.ln && from.rn != to.rn && from.ln != to.rn && from.rn != to.ln
    requires |from.queue| < 0x4000_0000 - 1
    requires system ==> forall names :: Enumerates(names, from.monitors) ==> Writable(Property(MONITORS_NAME, STRINGS_TAG, Strings(names)))
    modifies to, to.ln
    ensures to.Valid()
    ensures to.Value() == old(to.Value()).(ln := from.ln[..], queue := from.queue)
    ensures to.monitors == if system then from.monitors else old(to.monitors)
  {
    hide Writable, ReadMap, LoadToken, TokenPrivateData.Value, LoadMonitors, Unpack, Enumerates;
    var bytes := Ship(from, system);
    var got := UnmarshallMap(bytes);
    ghost var t := Kin(system);
    LoadedParts(to.Value(), to.nodes, t, got.value, TokenOf(from, system)) by { ValueParts(to); }
    to.LoadProperties(got.value, system);
    assert to.queue == from.queue by { ValueParts(to); }
  }

  lemma ValueParts(o: TokenPrivateData)
    requires o.Sized()
    ensures o.Value().ln == o.ln[..] && o.Value().queue == o.queue && |o.Value().ln| == o.nodes
  {
  }

  lemma WritableFits(m: Props)
    requires forall x :: x in m ==> Writable(m[x])
    ensures forall x :: x in m ==> KindOf(m[x].tag).Some? && Fits(KindOf(m[x].tag).value, m[x].value)
  {
  }

  lemma SavedIsPacked(p: Priv, t: TokenId, d: TokenData, names: seq<Str>, m: Props)
    requires p.ln == d.ln && p.queue == d.queue && d.props == map[]
    requires m == if t == System then SaveMonitors(SaveToken(map[], p), names) else SaveToken(map[], p)
    ensures m == Pack(t, d, names)
  {
  }

  lemma LoadedParts(p: Priv, n: nat, t: TokenId, m: Props, d: TokenData)
    requires Typed(m) && HasToken(m) && (t == System ==> MONITORS_NAME in m && m[MONITORS_NAME].value.Strings?)
    requires Unpack(t, m) == d && |d.ln| == n
    ensures LoadToken(p, n, m) == p.(ln := d.ln, queue := d.queue) && m[QUEUE_NAME].value.ds == d.queue
    ensures forall mons :: t == System ==> LoadMonitors(mons, m) == d.monitors
  {
  }
}
