/** Protocol messages as packets: what a node hands to the TCP layer is what its peer's loop is given. */
module Messages {
  import opened Basics
  import opened TokenMap
  import opened Codec
  import P = Packets
  import opened Handlers

  /** How ClusterLoop fills in a packet; a property map is marshalled in the order in which it is walked. */
  function ToPacket(from: NodeId, w: Wire, order: seq<Str>): P.CorePacket
    requires w.GiveToken? ==> forall x :: x in order ==> x in w.data
  {
    match w
    case ClusterHandshake => P.ClusterHandshake(AsU32(from))
    case RequestToken(t, num) => P.RequestToken(NameOf(t), num)
    case GiveToken(t, m) => P.GiveToken(NameOf(t), EncodeMap(order, m))
  }

  /** How ClusterLoop reads a packet. */
  function FromPacket(p: P.CorePacket): Option<Wire> {
    match p
    case ClusterHandshake(_) => Some(ClusterHandshake)
    case RequestToken(name, num) => Some(RequestToken(IdOf(name), num))
    case GiveToken(name, data) => if ReadMap(data).None? then None else Some(GiveToken(IdOf(name), ReadMap(data).value.0))
    case EdgeHandshake(_) => None
    case Signal(_, _) => None
  }

  predicate Transmissible(w: Wire) {
    && (w.RequestToken? || w.GiveToken? ==> Named(w.id))
    && (w.GiveToken? ==> Keyed(w.data) && |w.data| <= U32_MAX && forall x :: x in w.data ==> Writable(w.data[x]))
  }

  /** A message comes out of the receiver's buffer as it was put into the packet, whatever order its map was walked in and
      whatever stale bytes the buffer holds behind it. */
  lemma MessageRoundTrip(from: NodeId, w: Wire, order: seq<Str>, h: P.Header, buffer: seq<Byte>)
    requires Transmissible(w) && (w.GiveToken? ==> Walk(order, w.data) && |order| == |w.data|)
    requires var p := ToPacket(from, w, order);
      var end := P.HEADER_SIZE + |P.EncodePayload(p)|;
      && P.Sendable(p) && h.typ == P.TypeOf(p)
      && end <= |buffer| && buffer[P.HEADER_SIZE..end] == P.EncodePayload(p)
    ensures var got := P.Factory(h, buffer);
      got.Some? && FromPacket(got.value) == Some(w)
  {
    hide EncodeMap, ReadMap, Writable, Keyed, P.EncodePayload, P.Factory;
    var p := ToPacket(from, w, order);
    P.FactoryInverts(p, h, buffer);
    if w.GiveToken? {
      MapRoundTrip(order, w.data, []);
      assert EncodeMap(order, w.data) + [] == EncodeMap(order, w.data);
    }
  }
}
