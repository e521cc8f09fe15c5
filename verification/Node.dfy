/** The state of one ClusterLoop, and each of its event handlers as a function of that state. */
module Node {
  import opened Basics
  import opened Properties
  import opened Token
  import opened Slot

  datatype Node = Node(
    id: NodeId,
    n: nat,
    started: bool,
    startedCluster: bool,
    handshakes: nat,
    peers: set<NodeId>,
    priv: map<TokenId, Priv>,
    monitors: set<TokenId>,
    pub: map<TokenId, Props>,
    pendingRequests: set<TokenId>,
    pendingGrants: set<TokenId>)

  predicate NodeOk(v: Node) {
    v.id < v.n && (forall t :: t in v.priv ==> v.priv[t].Sized(v.n)) && v.peers <= Range(v.n)
  }

  function C(v: Node): Ctx {
    Ctx(v.id, v.n, v.startedCluster, v.peers)
  }

  /** The node's entries for one token. */
  function View(v: Node, t: TokenId): Slot {
    Slot(if t in v.priv then Some(v.priv[t]) else None, if t in v.pub then Some(v.pub[t]) else None,
         t in v.pendingRequests, t in v.pendingGrants)
  }

  function PutMap<V>(m: map<TokenId, V>, t: TokenId, v: Option<V>): map<TokenId, V> {
    if v.Some? then m[t := v.value] else m - {t}
  }

  function PutSet(m: set<TokenId>, t: TokenId, b: bool): set<TokenId> {
    if b then m + {t} else m - {t}
  }

  /** The node with its entries for one token replaced. */
  function Put(v: Node, t: TokenId, s: Slot): Node {
    v.(priv := PutMap(v.priv, t, s.priv), pub := PutMap(v.pub, t, s.pub),
       pendingRequests := PutSet(v.pendingRequests, t, s.pendReq), pendingGrants := PutSet(v.pendingGrants, t, s.pendGrant))
  }

  lemma ViewPut(v: Node, t: TokenId, s: Slot, t': TokenId)
    ensures View(Put(v, t, s), t') == if t' == t then s else View(v, t')
  {
  }

  /** The constructor: a cluster of one is up from the start. */
  function NewNode(n: nat, id: NodeId): Node {
    Node(id, n, n == 1, n == 1, 0, {}, if n == 1 then map[System := NewPriv(n, true, id == 0)] else map[], {}, map[], {}, {})
  }

  /** handleConnect */
  function HandleConnect(v: Node, peer: NodeId): (Node, set<Out>) {
    var v1 := v.(peers := v.peers + {peer});
    if |v1.peers| >= v.n - 1 && !v.started then
      var mons := if v.id == 0 then set t | t in v.priv && t != System else {};
      (v1.(started := true,
           priv := if System in v.priv then v.priv else v.priv[System := NewPriv(v.n, true, v.id == 0)],
           monitors := mons),
       Broadcast(v1.peers, Handshake))
    else (v1, {})
  }

  /** How handleNew enters a monitor the node has no record of: created? owned? */
  function EntryFlags(v: Node, t: TokenId): (bool, bool) {
    if !v.started then (v.id == 0, v.id == 0)
    else if t in v.monitors then (true, false)
    else if System in v.priv && v.priv[System].owned then (true, true)
    else (false, false)
  }

  /** handleNew */
  function HandleNew(v: Node, t: TokenId, props: Props): (Node, set<Out>)
    requires NodeOk(v)
  {
    var s := View(v, t);
    var (created, owned) := EntryFlags(v, t);
    var v1 := Put(v, t, Declare(C(v), s, props, created, owned));
    if s.pub.Some? || s.priv.Some? then (v1, {})
    else if owned && v.started then (v1.(monitors := v.monitors + {t}), {})
    else if !created && t != System then
      var (s', outs) := AskFor(C(v), System, View(v, System));
      (Put(v1, System, s'), outs)
    else (v1, {})
  }

  /** packetClusterHandshake */
  function HandshakeIn(v: Node): (Node, set<Out>)
    requires NodeOk(v)
  {
    var v1 := v.(handshakes := v.handshakes + 1);
    if v1.handshakes >= v.n - 1 && !v.startedCluster then ComeUpAll(v1.(startedCluster := true)) else (v1, {})
  }

  /** The two loops of packetClusterHandshake, over all tokens at once. */
  function ComeUpAll(v: Node): (Node, set<Out>)
    requires NodeOk(v)
  {
    (v.(priv := map t | t in v.priv :: ComeUp(C(v), t, View(v, t)).0.priv.value,
        pendingGrants := (set t | t in v.pendingGrants && ComeUp(C(v), t, View(v, t)).0.pendGrant)),
     set t, o | t in v.priv && o in ComeUp(C(v), t, View(v, t)).1 :: o)
  }

  /** packetGiveToken */
  function GiveTokenIn(v: Node, t: TokenId, d: TokenData): (Node, set<Out>)
    requires NodeOk(v) && forall x: nat :: x in d.queue ==> x < v.n
  {
    if !v.started then (v, {})
    else if t != System then (Put(v, t, GetGive(C(v), View(v, t), d)), {})
    else if !Accepts(View(v, t)) then (v, {})
    else
      var (v1, outs1) := AdoptAll(v, d.monitors);
      var mons := d.monitors + Unsettled(v);
      var (s, outs2) := GetSystem(C(v), View(v, System), d, mons);
      (Put(v1, System, s).(monitors := mons), outs1 + outs2)
  }

  /** The monitors whose creation is still open at this node. */
  function Unsettled(v: Node): set<TokenId> {
    set t | t in v.priv && t != System && !v.priv[t].created
  }

  /** The unsettled monitors that the system token does not list are minted, the others are marked as existing. */
  function AdoptAll(v: Node, mons: set<TokenId>): (Node, set<Out>)
    requires NodeOk(v)
  {
    (v.(priv := map t | t in v.priv :: if t == System then v.priv[t] else Adopt(C(v), t, View(v, t), t in mons).0.priv.value,
        pendingRequests := v.pendingRequests + (set t | t in Unsettled(v) && Adopt(C(v), t, View(v, t), t in mons).0.pendReq),
        pendingGrants := (set t | t in v.pendingGrants && (t in Unsettled(v) ==> Adopt(C(v), t, View(v, t), t in mons).0.pendGrant))),
     set t, o | t in Unsettled(v) && o in Adopt(C(v), t, View(v, t), t in mons).1 :: o)
  }

  /** packetRequestToken */
  function RequestTokenIn(v: Node, t: TokenId, from: NodeId, num: U32): (Node, set<Out>)
    requires NodeOk(v) && from < v.n
  {
    if !v.started then (v, {})
    else
      var (s, outs) := GetRequest(C(v), t, View(v, t), from, num, Carried(v, t));
      (Put(v, t, s), outs)
  }

  /** The monitor set that travels with a token. */
  function Carried(v: Node, t: TokenId): set<TokenId> {
    if t == System then v.monitors else {}
  }

  /** requestLock */
  function LockRequested(v: Node, t: TokenId): (Node, set<Out>)
    requires NodeOk(v)
  {
    var (s, outs) := RequestLock(C(v), t, View(v, t));
    (Put(v, t, s), outs)
  }

  /** requestUnlock */
  function UnlockRequested(v: Node, t: TokenId): (Node, set<Out>)
    requires NodeOk(v)
  {
    var (s, outs) := RequestUnlock(C(v), t, View(v, t));
    (Put(v, t, s), outs)
  }

  lemma ViewComeUpAll(v: Node, t: TokenId)
    requires NodeOk(v)
    ensures View(ComeUpAll(v).0, t) == ComeUp(C(v), t, View(v, t)).0
  {
  }

  lemma ViewAdoptAll(v: Node, mons: set<TokenId>, t: TokenId)
    requires NodeOk(v)
    ensures View(AdoptAll(v, mons).0, t) == if t == System then View(v, t) else Adopt(C(v), t, View(v, t), t in mons).0
  {
  }
}
