/** Monitor properties: the tagged values that travel with a token. */
module Properties {
  import opened Basics

  type U16 = x: int | 0 <= x < 0x1_0000
  type U64 = x: int | 0 <= x < 0x1_0000_0000_0000_0000

  /** The contents of a PropertyValue. Signed integers and floats are carried as their bit patterns. */
  datatype Value =
    | OneByte(b: Byte) | OneWord(w: U16) | OneDword(d: U32) | OneQword(q: U64) | OneFloat(f: U32)
    | Bytes(bs: seq<Byte>) | Words(ws: seq<U16>) | Dwords(ds: seq<U32>) | Qwords(qs: seq<U64>) | Floats(fs: seq<U32>)
    | Strings(ss: seq<Str>)

  datatype Property = Property(id: Str, tag: Str, value: Value)

  /** A PropertyMap, and also the valuation of the variables an application binds to a monitor. */
  type Props = map<Str, Property>

  /** Monitor::loadProperties: every bound variable found in m takes the value found there. */
  function LoadProps(bound: Props, m: Props): Props {
    map x | x in bound :: if x in m then m[x] else bound[x]
  }

  /** When both ends bind the same names, loading replaces the whole valuation. */
  lemma LoadReplaces(bound: Props, m: Props)
    requires bound.Keys == m.Keys
    ensures LoadProps(bound, m) == m
  {
  }
}
