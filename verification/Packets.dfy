/** Packets on a TCP stream: the layout of lib/packet.cpp and the splitting of a byte stream into frames. */
module Packets {
  import opened Basics
  import opened Properties
  import opened Codec

  const HEADER_SIZE: nat := 6
  const MAX_SIZE: nat := 96 * 1024
  const MAX_PAYLOAD: nat := MAX_SIZE - HEADER_SIZE

  datatype Header = Header(typ: U16, payloadSize: U32)

  /** The packets of lib/packets/core.cpp. */
  datatype CorePacket =
    | EdgeHandshake(id: U32)
    | ClusterHandshake(id: U32)
    | RequestToken(tokenId: Str, sequenceId: U32)
    | GiveToken(tokenId: Str, data: seq<Byte>)
    | Signal(tokenId: Str, variableId: Str)

  function TypeOf(p: CorePacket): U16 {
    match p
    case EdgeHandshake(_) => 1
    case ClusterHandshake(_) => 2
    case RequestToken(_, _) => 3
    case GiveToken(_, _) => 4
    case Signal(_, _) => 5
  }

  function EncodePayload(p: CorePacket): seq<Byte> {
    match p
    case EdgeHandshake(id) => Be32(id)
    case ClusterHandshake(id) => Be32(id)
    case RequestToken(t, num) => Blob(t) + Be32(num)
    case GiveToken(t, data) => Blob(t) + Blob(data)
    case Signal(t, v) => Blob(t) + Blob(v)
  }

  function HeaderBytes(h: Header): (r: seq<Byte>)
    ensures |r| == HEADER_SIZE
  {
    Be16(h.typ) + Be32(h.payloadSize)
  }

  /** A packet as it goes onto the stream. */
  function EncodePacket(p: CorePacket): seq<Byte> {
    var payload := EncodePayload(p);
    HeaderBytes(Header(TypeOf(p), Size32(|payload|))) + payload
  }

  /** Packet::encode writes a zero where the payload size belongs and fills it in at the end. */
  method Encode(p: CorePacket) returns (packet: seq<Byte>)
    ensures packet == EncodePacket(p)
  {
    hide EncodePayload, Size32, Be32, Be16;
    var payload := EncodePayload(p);
    packet := HeaderWords(TypeOf(p), 0);
    packet := packet + payload;
    ghost var zeros := packet;
    var size := SizeField(|packet| - HEADER_SIZE);
    for i := 0 to 4
      invariant |packet| == |zeros| && packet[..2] == zeros[..2] && packet[6..] == zeros[6..]
      invariant forall k: nat :: k < i ==> packet[2 + k] == size[k]
    {
      packet := packet[2 + i := size[i]];
    }
    assert packet[2..6] == size;
    assert packet == packet[..2] + packet[2..6] + packet[6..];
    assert zeros[6..] == payload;
  }

  /** The two words of a header. */
  method HeaderWords(typ: U16, size: U32) returns (b: seq<Byte>)
    ensures b == Be16(typ) + Be32(size) && |Be16(typ)| == 2 && |b| == HEADER_SIZE && b[..2] == Be16(typ)
  {
    b := Be16(typ);
    b := b + Be32(size);
  }

  method SizeField(n: nat) returns (b: seq<Byte>)
    ensures b == Be32(Size32(n)) && |b| == 4
  {
    b := Be32(Size32(n));
  }

  // ---------------------------------------------------------------- factory

  function Two<A, B, C>(a: Option<(A, seq<Byte>)>, dec: Decoder<B>, f: (A, B) -> C): Option<C> {
    if a.None? then None
    else
      var b := dec(a.value.1);
      if b.None? then None else Some(f(a.value.0, b.value.0))
  }

  function Just<A, C>(a: Option<(A, seq<Byte>)>, f: A -> C): Option<C> {
    if a.None? then None else Some(f(a.value.0))
  }

  /** Packet::factory: the payload is read from behind the header; how long it is does not matter. */
  function Factory(h: Header, buffer: seq<Byte>): Option<CorePacket> {
    if |buffer| < HEADER_SIZE then None
    else
      var b := buffer[HEADER_SIZE..];
      if h.typ == 1 then Just(Read32(b), x => EdgeHandshake(x))
      else if h.typ == 2 then Just(Read32(b), x => ClusterHandshake(x))
      else if h.typ == 3 then Two(ReadBlob(b), Read32, (t, x) => RequestToken(t, x))
      else if h.typ == 4 then Two(ReadBlob(b), ReadBlob, (t, x) => GiveToken(t, x))
      else if h.typ == 5 then Two(ReadBlob(b), ReadBlob, (t, x) => Signal(t, x))
      else None
  }

  predicate Sendable(p: CorePacket) {
    |EncodePayload(p)| <= MAX_PAYLOAD
  }

  lemma BlobFits(s: seq<Byte>)
    ensures |Blob(s)| == 4 + |s|
  {
  }

  /** A sendable packet is read back whatever bytes lie before and behind its payload in the receive buffer. */
  lemma FactoryInverts(p: CorePacket, h: Header, buffer: seq<Byte>)
    requires Sendable(p) && h.typ == TypeOf(p)
    requires var end := HEADER_SIZE + |EncodePayload(p)|; end <= |buffer| && buffer[HEADER_SIZE..end] == EncodePayload(p)
    ensures Factory(h, buffer) == Some(p)
  {
    hide Blob, ReadBlob, Be32, Read32;
    var stale := buffer[HEADER_SIZE + |EncodePayload(p)|..];
    assert buffer[HEADER_SIZE..] == EncodePayload(p) + stale;
    match p
    case EdgeHandshake(id) => Front32(id, stale);
    case ClusterHandshake(id) => Front32(id, stale);
    case RequestToken(t, num) => {
      FrontBlob(t, Be32(num) + stale);
      Front32(num, stale);
      Regroup(Blob(t), Be32(num), stale);
    }
    case GiveToken(t, data) => {
      FrontBlob(t, Blob(data) + stale);
      FrontBlob(data, stale);
      Regroup(Blob(t), Blob(data), stale);
    }
    case Signal(t, v) => {
      FrontBlob(t, Blob(v) + stale);
      FrontBlob(v, stale);
      Regroup(Blob(t), Blob(v), stale);
    }
  }

  lemma Front32(x: U32, rest: seq<Byte>)
    ensures Read32(Be32(x) + rest) == Some((x, rest))
  {
    ReadSize(x, rest);
  }

  lemma FrontBlob(s: seq<Byte>, rest: seq<Byte>)
    requires |Blob(s)| <= MAX_PAYLOAD
    ensures ReadBlob(Blob(s) + rest) == Some((s, rest))
  {
    BlobFits(s);
    RoundTripBlob(s);
    assert Undoes(Blob, ReadBlob, s);
  }

  // ---------------------------------------------------------------- frames

  datatype Frame = Frame(typ: U16, payload: seq<Byte>)

  function ParseHeader(b: seq<Byte>): Header
    requires |b| >= HEADER_SIZE
  {
    Header(b[0] as int * 0x100 + b[1], Word32(b[2..6]))
  }

  /** How many bytes the frame at the front takes, once its header is there. */
  function FrameLength(b: seq<Byte>): nat
    requires |b| >= HEADER_SIZE
  {
    HEADER_SIZE + ParseHeader(b).payloadSize
  }

  /** The frame at the front is complete, and not too long to be accepted. */
  predicate Complete(b: seq<Byte>) {
    |b| >= HEADER_SIZE && ParseHeader(b).payloadSize <= MAX_PAYLOAD && |b| >= FrameLength(b)
  }

  function FirstFrame(b: seq<Byte>): Frame
    requires Complete(b)
  {
    Frame(ParseHeader(b).typ, b[HEADER_SIZE..FrameLength(b)])
  }

  /** The complete frames of a stream, and what is left over. */
  function Split(b: seq<Byte>): (seq<Frame>, seq<Byte>)
    decreases |b|
  {
    if !Complete(b) then ([], b)
    else
      var (fs, rest) := Split(b[FrameLength(b)..]);
      ([FirstFrame(b)] + fs, rest)
  }

  /** What is left over holds no complete frame. */
  lemma {:induction false} SplitLeavesNone(b: seq<Byte>)
    ensures !Complete(Split(b).1)
    decreases |b|
  {
    if Complete(b) {
      SplitLeavesNone(b[FrameLength(b)..]);
    }
  }

  lemma CompleteMore(b: seq<Byte>, c: seq<Byte>)
    requires Complete(b)
    ensures Complete(b + c) && FrameLength(b + c) == FrameLength(b) && FirstFrame(b + c) == FirstFrame(b)
    ensures (b + c)[FrameLength(b)..] == b[FrameLength(b)..] + c
  {
    assert (b + c)[2..6] == b[2..6];
  }

  /** Splitting goes on from the leftover when more bytes come in. */
  lemma {:induction false} SplitMore(b: seq<Byte>, c: seq<Byte>)
    ensures var (fs, rest) := Split(b);
      var (gs, rest') := Split(rest + c);
      Split(b + c) == (fs + gs, rest')
    decreases |b|
  {
    hide FirstFrame;
    if Complete(b) {
      CompleteMore(b, c);
      var tail := b[FrameLength(b)..];
      SplitMore(tail, c);
      var (fs, rest) := Split(tail);
      var (gs, rest') := Split(rest + c);
      assert Split(b + c) == ([FirstFrame(b)] + Split(tail + c).0, Split(tail + c).1);
      assert [FirstFrame(b)] + (fs + gs) == [FirstFrame(b)] + fs + gs;
    } else {
      var (gs, rest') := Split(b + c);
      assert [] + gs == gs;
    }
  }

  /** The stream of a list of packets. */
  function Stream(ps: seq<CorePacket>): seq<Byte> {
    if ps == [] then [] else Stream(ps[..|ps| - 1]) + EncodePacket(ps[|ps| - 1])
  }

  lemma StreamPush(ps: seq<CorePacket>, p: CorePacket)
    ensures Stream(ps + [p]) == Stream(ps) + EncodePacket(p)
  {
    hide EncodePacket;
    assert (ps + [p])[..|ps|] == ps;
  }

  lemma PacketNotEmpty(p: CorePacket)
    ensures |EncodePacket(p)| > 0
  {
  }

  function FrameOf(p: CorePacket): Frame {
    Frame(TypeOf(p), EncodePayload(p))
  }

  lemma PacketIsFrame(p: CorePacket)
    requires Sendable(p)
    ensures Split(EncodePacket(p)) == ([FrameOf(p)], [])
  {
    hide EncodePayload;
    var payload := EncodePayload(p);
    var b := EncodePacket(p);
    SizeFits(|payload|);
    Word32Be(Size32(|payload|));
    assert b[2..6] == Be32(Size32(|payload|));
    assert ParseHeader(b) == Header(TypeOf(p), |payload|);
    assert b[HEADER_SIZE..FrameLength(b)] == payload;
    assert b[FrameLength(b)..] == [];
    assert Split([]) == ([], []);
    assert FirstFrame(b) == FrameOf(p);
    assert [FirstFrame(b)] + [] == [FrameOf(p)];
  }

  lemma SplitEmpty()
    ensures Split([]) == ([], [])
  {
  }

  lemma {:induction false} StreamSplits(ps: seq<CorePacket>)
    requires forall p :: p in ps ==> Sendable(p)
    ensures Split(Stream(ps)).1 == [] && |Split(Stream(ps)).0| == |ps|
    ensures forall i :: 0 <= i < |ps| ==> Split(Stream(ps)).0[i] == FrameOf(ps[i])
  {
    hide EncodePacket, FrameOf, Sendable, Split;
    SplitEmpty();
    if ps != [] {
      var last := |ps| - 1;
      StreamSplits(ps[..last]);
      assert ps[last] in ps;
      PacketIsFrame(ps[last]);
      SplitMore(Stream(ps[..last]), EncodePacket(ps[last]));
      assert [] + EncodePacket(ps[last]) == EncodePacket(ps[last]);
    }
  }

  /** The frames of a prefix of a stream are a prefix of its frames. */
  lemma PrefixSplits(b: seq<Byte>, whole: seq<Byte>)
    requires b <= whole
    ensures Split(b).0 <= Split(whole).0
  {
    SplitMore(b, whole[|b|..]);
    assert b + whole[|b|..] == whole;
  }
}
