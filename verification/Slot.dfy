/** What one node knows about one token, and what each event of lib/cluster_loop.cpp does to it. */
module Slot {
  import opened Basics
  import opened Properties
  import opened Token

  /** The token state that a GiveToken packet carries. */
  datatype TokenData = TokenData(ln: seq<U32>, queue: seq<NodeId>, monitors: set<TokenId>, props: Props)

  datatype Msg =
    | Handshake
    | Request(t: TokenId, num: U32)
    | Give(t: TokenId, data: TokenData)

  /** A packet handed to the TCP layer. */
  datatype Out = Out(dst: NodeId, msg: Msg)

  /** The part of the node's state that every token shares. */
  datatype Ctx = Ctx(id: NodeId, n: nat, up: bool, peers: set<NodeId>)

  /** The entries for one token in m_tokenPrivate, m_tokens, m_pendingRequests and m_pendingGrants. */
  datatype Slot = Slot(priv: Option<Priv>, pub: Option<Props>, pendReq: bool, pendGrant: bool)

  predicate SlotOk(c: Ctx, s: Slot) {
    c.id < c.n && (s.priv.Some? ==> s.priv.value.Sized(c.n))
  }

  function Broadcast(peers: set<NodeId>, m: Msg): set<Out> {
    set j | j in peers :: Out(j, m)
  }

  /** ClusterLoop::handleNew, given how the node would enter a monitor it has no record of. */
  function Declare(c: Ctx, s: Slot, props: Props, created: bool, owned: bool): Slot {
    if s.pub.Some? then s
    else
      s.(pub := Some(props), priv := if s.priv.Some? then s.priv else Some(NewPriv(c.n, created, owned)))
  }

  /** ClusterLoop::requestToken. The source dereferences a null entry when there is none. */
  function AskFor(c: Ctx, t: TokenId, s: Slot): (Slot, set<Out>)
    requires SlotOk(c, s)
  {
    if s.pendReq then (s, {})
    else if !c.up || s.priv.None? then (s.(pendReq := true), {})
    else
      var p := IncrementRequestNumber(s.priv.value, c.id);
      (s.(pendReq := true, priv := Some(p)), Broadcast(c.peers, Request(t, p.rn[c.id])))
  }

  /** ClusterLoop::grant. */
  function Granted(s: Slot): Slot {
    if s.priv.Some? && s.pub.Some? && s.pendGrant then
      s.(priv := Some(s.priv.value.(locked := true)), pendGrant := false)
    else s
  }

  /** The properties that a node saves into a token: none for a monitor it has not declared. */
  function PropsOf(p: Option<Props>): Props {
    if p.Some? then p.value else map[]
  }

  /** ClusterLoop::sendToken. */
  function HandOver(t: TokenId, s: Slot, dst: NodeId, mons: set<TokenId>): (Slot, set<Out>)
    requires s.priv.Some?
  {
    var p := s.priv.value;
    (s.(priv := Some(p.(owned := false))), {Out(dst, Give(t, TokenData(p.ln, p.queue, mons, PropsOf(s.pub))))})
  }

  /** Release, and pass the token to the head of the queue when there is one. */
  function ReleaseAndPass(c: Ctx, t: TokenId, s: Slot, mons: set<TokenId>): (Slot, set<Out>)
    requires SlotOk(c, s) && s.priv.Some?
  {
    var p := Release(s.priv.value, c.id);
    if p.queue == [] then (s.(priv := Some(p)), {})
    else HandOver(t, s.(priv := Some(p.(queue := p.queue[1..]))), p.queue[0], mons)
  }

  /** ClusterLoop::requestLock. */
  function RequestLock(c: Ctx, t: TokenId, s: Slot): (Slot, set<Out>)
    requires SlotOk(c, s)
  {
    if s.priv.None? || s.pub.None? || s.priv.value.locked then (s, {})
    else
      var s1 := s.(pendGrant := true);
      if !c.up then (s1, {})
      else if s.priv.value.owned then (Granted(s1), {})
      else AskFor(c, t, s1)
  }

  /** ClusterLoop::requestUnlock. */
  function RequestUnlock(c: Ctx, t: TokenId, s: Slot): (Slot, set<Out>)
    requires SlotOk(c, s)
  {
    if s.priv.None? || !s.priv.value.locked then (s, {})
    else ReleaseAndPass(c, t, s.(priv := Some(s.priv.value.(locked := false))), {})
  }

  /** ClusterLoop::packetRequestToken at a started node. */
  function GetRequest(c: Ctx, t: TokenId, s: Slot, from: NodeId, num: U32, mons: set<TokenId>): (Slot, set<Out>)
    requires SlotOk(c, s) && from < c.n
  {
    var p0 := if s.priv.Some? then s.priv.value else NewPriv(c.n, true, false);
    var p := UpdateRequestNumber(p0, from, num);
    var s1 := s.(priv := Some(p));
    if p.owned && !p.locked && Wants(p, from) then HandOver(t, s1, from, mons) else (s1, {})
  }

  /** TokenPrivateData::loadProperties: an LN array of another length leaves the record as it is. */
  function Load(p: Priv, n: nat, d: TokenData): Priv {
    if |d.ln| != n then p else p.(ln := d.ln, queue := d.queue)
  }

  /** The first half of ClusterLoop::packetGiveToken at a started node: take possession and load. */
  predicate Accepts(s: Slot) {
    s.priv.Some? && !s.priv.value.owned
  }

  function Taken(c: Ctx, s: Slot, d: TokenData): Slot
    requires Accepts(s)
  {
    s.(priv := Some(Load(s.priv.value.(owned := true), c.n, d)), pendReq := false)
  }

  /** ClusterLoop::packetGiveToken for a user monitor, at a started node. */
  function GetGive(c: Ctx, s: Slot, d: TokenData): Slot {
    if !Accepts(s) then s
    else
      var s1 := Taken(c, s, d);
      if s1.pub.None? then s1
      else
        Granted(s1.(pub := Some(LoadProps(s1.pub.value, d.props))))
  }

  /** ClusterLoop::packetGiveToken for the system token; mons is the monitor set after its loop. */
  function GetSystem(c: Ctx, s: Slot, d: TokenData, mons: set<TokenId>): (Slot, set<Out>)
    requires SlotOk(c, s)
    requires forall x: nat :: x in d.queue ==> x < c.n
  {
    if !Accepts(s) then (s, {})
    else ReleaseAndPass(c, System, Taken(c, s, d), mons)
  }

  /** The loop of packetGiveToken over the other entries: settle one that is not known to be created. */
  function Adopt(c: Ctx, t: TokenId, s: Slot, exists_: bool): (Slot, set<Out>)
    requires SlotOk(c, s)
  {
    if s.priv.None? || s.priv.value.created then (s, {})
    else if exists_ then
      var s1 := s.(priv := Some(s.priv.value.(created := true, owned := false)));
      if s1.pendGrant then AskFor(c, t, s1) else (s1, {})
    else
      (Granted(s.(priv := Some(s.priv.value.(created := true, owned := true)))), {})
  }

  /** The part of packetClusterHandshake that runs once the last handshake is in; c.up is already set. */
  function ComeUp(c: Ctx, t: TokenId, s: Slot): (Slot, set<Out>)
    requires SlotOk(c, s)
  {
    var s1 := if s.priv.Some? && s.priv.value.owned then Granted(s) else s;
    if s1.pendReq && s1.priv.Some? then
      var p := IncrementRequestNumber(s1.priv.value, c.id);
      (s1.(priv := Some(p)), Broadcast(c.peers, Request(t, p.rn[c.id])))
    else (s1, {})
  }
}
