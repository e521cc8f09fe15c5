/** What one node goes through: its events, with packets as they arrive, and the node after all of them. */
module NodeEvents {
  import opened Basics
  import opened Properties
  import opened Slot
  import opened Node
  import opened TokenMap
  import opened Handlers

  datatype Event =
    | Connect(peer: NodeId)
    | New(id: TokenId, props: Props)
    | Lock(id: TokenId)
    | Unlock(id: TokenId)
    | Write(id: TokenId, props: Props)
    | HandshakePacket
    | RequestPacket(id: TokenId, from: NodeId, num: U32)
    | TokenPacket(id: TokenId, data: Props)

  /** What the handler of the event asks for. */
  ghost predicate Fits(v: Node, e: Event) {
    NodeOk(v)
    && match e
       case Connect(peer) => peer < v.n
       case New(id, props) => id.Monitor? && Plain(props)
       case Lock(_) => true
       case Unlock(id) => id.Monitor?
       case Write(id, props) => id.Monitor? && Plain(props)
       case HandshakePacket => v.handshakes + 1 >= v.n - 1 ==> v.started
       case RequestPacket(_, from, _) => from < v.n
       case TokenPacket(id, data) => Castable(id, data) && InRange(v.n, TokenIn(id, data, v.n, v.monitors))
  }

  ghost function Handled(v: Node, e: Event): (Node, set<Out>)
    requires Fits(v, e)
  {
    match e
    case Connect(peer) => HandleConnect(v, peer)
    case New(id, props) => HandleNew(v, id, props)
    case Lock(id) => LockRequested(v, id)
    case Unlock(id) => UnlockRequested(v, id)
    case Write(id, props) => (v.(pub := v.pub[id := props]), {})
    case HandshakePacket => HandshakeIn(v)
    case RequestPacket(id, from, num) => RequestTokenIn(v, id, from, num)
    case TokenPacket(id, data) => GiveTokenIn(v, id, TokenIn(id, data, v.n, v.monitors))
  }

  /** The node after all events, if each of them fits. */
  ghost function After(v: Node, es: seq<Event>): Option<Node> {
    if es == [] then Some(v)
    else
      var w := After(v, es[..|es| - 1]);
      if w.Some? && Fits(w.value, es[|es| - 1]) then Some(Handled(w.value, es[|es| - 1]).0) else None
  }

  /** The packets sent in the course of these events, event by event. */
  ghost predicate SentBy(v: Node, es: seq<Event>, before: seq<Sent>, after: seq<Sent>)
    decreases |es|, 0
  {
    if es == [] then before == after else SentLast(v, es[..|es| - 1], es[|es| - 1], before, after)
  }

  ghost predicate SentLast(v: Node, es: seq<Event>, e: Event, before: seq<Sent>, after: seq<Sent>)
    decreases |es|, 1
  {
    var w := After(v, es);
    w.Some? && Fits(w.value, e) && exists mid :: SentBy(v, es, before, mid) && Sends(mid, after, Handled(w.value, e).1)
  }

  lemma AfterOne(v: Node, es: seq<Event>, k: nat)
    requires k < |es|
    ensures After(v, es[..k + 1]) ==
      var w := After(v, es[..k]);
      if w.Some? && Fits(w.value, es[k]) then Some(Handled(w.value, es[k]).0) else None
  {
    assert es[..k + 1][..k] == es[..k];
  }

  lemma {:induction false} AfterPrefix(v: Node, es: seq<Event>, k: nat)
    requires k <= |es| && After(v, es).Some?
    ensures After(v, es[..k]).Some?
    decreases |es|
  {
    if k == |es| {
      assert es[..k] == es;
    } else {
      assert es[..|es| - 1][..k] == es[..k];
      AfterPrefix(v, es[..|es| - 1], k);
    }
  }

  lemma SentOne(v: Node, es: seq<Event>, k: nat, before: seq<Sent>, mid: seq<Sent>, after: seq<Sent>)
    requires k < |es| && SentBy(v, es[..k], before, mid)
    requires var w := After(v, es[..k]); w.Some? && Fits(w.value, es[k]) && Sends(mid, after, Handled(w.value, es[k]).1)
    ensures SentBy(v, es[..k + 1], before, after)
  {
    assert es[..k + 1][..k] == es[..k];
  }
}
