/** One token in an n-node cluster: every node's slot for it and every packet about it. */
module World {
  import opened Basics
  import opened Slot

  /** A packet in flight. The stamp tells apart the packets of different steps. */
  datatype Packet = Packet(src: NodeId, dst: NodeId, stamp: nat, msg: Msg)

  datatype World = World(t: TokenId, n: nat, up: seq<bool>, slots: seq<Slot>, net: set<Packet>, minted: bool)
  {
    function C(i: NodeId): Ctx
      requires i < |up|
    {
      Ctx(i, n, up[i], Others(n, i))
    }
  }

  function Stamped(src: NodeId, stamp: nat, outs: set<Out>): set<Packet> {
    set o | o in outs :: Packet(src, o.dst, stamp, o.msg)
  }

  /** Node i moves to slot s, consuming some packets and sending others. */
  function Apply(k: World, i: NodeId, s: Slot, used: set<Packet>, stamp: nat, outs: set<Out>): World
    requires i < |k.slots|
  {
    k.(slots := k.slots[i := s], net := k.net - used + Stamped(i, stamp, outs))
  }

  predicate PacketOk(k: World, p: Packet) {
    p.src < k.n && p.dst < k.n
    && match p.msg
       case Handshake => false
       case Request(t, _) => t == k.t
       case Give(t, d) => t == k.t && |d.ln| == k.n && forall x: nat :: x in d.queue ==> x < k.n
  }

  predicate WellFormed(k: World) {
    && 0 < k.n == |k.up| == |k.slots|
    && (forall i: nat :: i < k.n ==> SlotOk(k.C(i), k.slots[i]))
    && (forall p :: p in k.net ==> PacketOk(k, p))
  }

  // ---------------------------------------------------------------- at most one token

  predicate Holds(s: Slot) {
    s.priv.Some? && (s.priv.value.owned || s.priv.value.locked)
  }

  /** The number of nodes with owned or locked set plus the number of GiveToken packets in flight is at most one,
      and it is zero for a token that is not minted. */
  predicate AtMostOne(k: World)
    requires WellFormed(k)
  {
    && (forall i: nat, j: nat :: i < k.n && j < k.n && Holds(k.slots[i]) && Holds(k.slots[j]) ==> i == j)
    && (forall i: nat, p :: i < k.n && p in k.net && p.msg.Give? ==> !Holds(k.slots[i]))
    && (forall p, q :: p in k.net && q in k.net && p.msg.Give? && q.msg.Give? ==> p == q)
    && (!k.minted ==> (forall i: nat :: i < k.n ==> !Holds(k.slots[i])) && (forall p :: p in k.net ==> !p.msg.Give?))
  }

  ghost predicate Single(k: World) {
    WellFormed(k) && AtMostOne(k)
  }

  lemma Formed(k: World)
    requires Single(k)
    ensures WellFormed(k) && AtMostOne(k) && |k.slots| == k.n
  {
  }

  /** An event at one node ends with at most one token there or sent, and with none unless it began with one. */
  predicate Fair(before: bool, s: Slot, outs: set<Out>) {
    && (forall o :: o in outs && o.msg.Give? ==> !Holds(s) && before)
    && (forall o, o' :: o in outs && o' in outs && o.msg.Give? && o'.msg.Give? ==> o == o')
    && (Holds(s) ==> before)
  }

  lemma FairKeepsAtMostOne(k: World, i: NodeId, s: Slot, used: set<Packet>, stamp: nat, outs: set<Out>, minted: bool)
    requires WellFormed(k) && AtMostOne(k) && i < k.n
    requires var k' := Apply(k, i, s, used, stamp, outs).(minted := minted); WellFormed(k')
    requires k.minted ==> minted
    requires Fair(
               Holds(k.slots[i]) || (exists p :: p in used && p in k.net && p.msg.Give?) || (!k.minted && minted),
               s, outs)
    ensures AtMostOne(Apply(k, i, s, used, stamp, outs).(minted := minted))
  {
    var k' := Apply(k, i, s, used, stamp, outs).(minted := minted);
    var sent := Stamped(i, stamp, outs);
    forall p | p in sent && p.msg.Give?
      ensures Out(p.dst, p.msg) in outs
    {
    }
  }
}
