/** Packets as they leave the loop, and each event handler taken apart into the steps of its source. */
module Handlers {
  import opened Basics
  import opened Properties
  import opened Token
  import opened Slot
  import S = Slot
  import opened Node
  import opened TokenMap

  datatype Wire =
    | ClusterHandshake
    | RequestToken(id: TokenId, num: U32)
    | GiveToken(id: TokenId, data: Props)

  datatype Sent = Sent(dst: NodeId, packet: Wire)

  predicate Readable(t: TokenId, m: Props) {
    Typed(m) && HasToken(m) && (t == System ==> MONITORS_NAME in m && m[MONITORS_NAME].value.Strings?)
  }

  /** The message that a packet stands for. */
  function Meaning(w: Wire): Msg {
    match w
    case ClusterHandshake => Handshake
    case RequestToken(t, num) => Request(t, num)
    case GiveToken(t, m) => Give(t, if Readable(t, m) then Unpack(t, m) else TokenData([], [], {}, map[]))
  }

  function Read(q: seq<Sent>): (r: seq<Out>)
    ensures |r| == |q|
  {
    seq(|q|, i requires 0 <= i < |q| => Out(q[i].dst, Meaning(q[i].packet)))
  }

  /** The packets appended to the outbox are those of s, each once. */
  ghost predicate Sends(before: seq<Sent>, after: seq<Sent>, s: set<Out>) {
    before <= after && var r := Read(after[|before|..]); NoDup(r) && forall o :: o in r <==> o in s
  }

  lemma SendsNothing(q: seq<Sent>)
    ensures Sends(q, q, {})
  {
    assert q[|q|..] == [];
  }

  lemma SendsMore(q0: seq<Sent>, q1: seq<Sent>, q2: seq<Sent>, s: set<Out>, s': set<Out>)
    requires Sends(q0, q1, s) && Sends(q1, q2, s') && s !! s'
    ensures Sends(q0, q2, s + s')
  {
    var a, b, c := Read(q1[|q0|..]), Read(q2[|q1|..]), Read(q2[|q0|..]);
    assert q2[|q0|..] == q1[|q0|..] + q2[|q1|..];
    assert c == a + b;
    forall i, j | 0 <= i < j < |c|
      ensures c[i] != c[j]
    {
      if i < |a| <= j {
        assert a[i] in a && b[j - |a|] in b;
      }
    }
  }

  lemma SendsOne(q: seq<Sent>, x: Sent)
    ensures Sends(q, q + [x], {Out(x.dst, Meaning(x.packet))})
  {
    assert (q + [x])[|q|..] == [x];
    assert Read([x]) == [Out(x.dst, Meaning(x.packet))];
  }

  // ---------------------------------------------------------------- nodes by their views

  lemma PutView(v: Node, t: TokenId)
    ensures Put(v, t, View(v, t)) == v
  {
  }

  predicate SameRest(v: Node, w: Node) {
    && v.id == w.id && v.n == w.n && v.started == w.started && v.startedCluster == w.startedCluster
    && v.handshakes == w.handshakes && v.peers == w.peers && v.monitors == w.monitors
  }

  lemma SameViews(v: Node, w: Node)
    requires SameRest(v, w) && forall t :: View(v, t) == View(w, t)
    ensures v == w
  {
    forall t
      ensures t in v.priv <==> t in w.priv
      ensures t in v.priv ==> v.priv[t] == w.priv[t]
      ensures t in v.pub <==> t in w.pub
      ensures t in v.pub ==> v.pub[t] == w.pub[t]
      ensures t in v.pendingRequests <==> t in w.pendingRequests
      ensures t in v.pendingGrants <==> t in w.pendingGrants
    {
      assert View(v, t) == View(w, t);
    }
    assert v.priv == w.priv && v.pub == w.pub && v.pendingRequests == w.pendingRequests && v.pendingGrants == w.pendingGrants;
  }

  // ---------------------------------------------------------------- parts of handlers

  /** requestToken */
  function Asked(v: Node, t: TokenId): (Node, set<Out>)
    requires NodeOk(v)
  {
    var (s, outs) := AskFor(C(v), t, View(v, t));
    (Put(v, t, s), outs)
  }

  /** The node with the record of one token replaced. */
  function Record(v: Node, t: TokenId, p: Priv): Node {
    v.(priv := v.priv[t := p])
  }

  lemma PutRecord(v: Node, t: TokenId, p: Priv)
    ensures Put(v, t, View(v, t).(priv := Some(p))) == Record(v, t, p)
    ensures View(Record(v, t, p), t) == View(v, t).(priv := Some(p))
  {
    PutView(v, t);
  }

  lemma AskedMeans(v: Node, t: TokenId)
    requires NodeOk(v)
    ensures Asked(v, t) ==
      if t in v.pendingRequests then (v, {})
      else if !v.startedCluster || t !in v.priv then (v.(pendingRequests := v.pendingRequests + {t}), {})
      else
        var p := Token.IncrementRequestNumber(v.priv[t], v.id);
        (Record(v.(pendingRequests := v.pendingRequests + {t}), t, p), S.Broadcast(v.peers, Request(t, p.rn[v.id])))
  {
    PutView(v, t);
  }

  /** grant */
  function Grants(v: Node, t: TokenId): Node {
    Put(v, t, Granted(View(v, t)))
  }

  lemma GrantsMeans(v: Node, t: TokenId)
    ensures Grants(v, t) ==
      if t in v.priv && t in v.pub && t in v.pendingGrants then
        Record(v, t, v.priv[t].(locked := true)).(pendingGrants := v.pendingGrants - {t})
      else v
  {
    PutView(v, t);
  }

  /** sendToken */
  function Handed(v: Node, t: TokenId, dst: NodeId): (Node, set<Out>)
    requires t in v.priv
  {
    var (s, outs) := HandOver(t, View(v, t), dst, Carried(v, t));
    (Put(v, t, s), outs)
  }

  /** The token that sendToken sends. */
  function Cargo(v: Node, t: TokenId): TokenData
    requires t in v.priv
  {
    TokenData(v.priv[t].ln, v.priv[t].queue, Carried(v, t), PropsOf(View(v, t).pub))
  }

  lemma HandedMeans(v: Node, t: TokenId, dst: NodeId)
    requires t in v.priv
    ensures Handed(v, t, dst) == (Record(v, t, v.priv[t].(owned := false)), {Out(dst, Give(t, Cargo(v, t)))})
  {
    PutRecord(v, t, v.priv[t].(owned := false));
  }

  lemma RecordTwice(v: Node, t: TokenId, p: Priv, q: Priv)
    ensures Record(Record(v, t, p), t, q) == Record(v, t, q)
    ensures Carried(Record(v, t, p), t) == Carried(v, t) && View(Record(v, t, p), t).pub == View(v, t).pub
  {
    assert v.priv[t := p][t := q] == v.priv[t := q];
  }

  /** sendToken of a record that was just replaced */
  lemma HandedRecord(v: Node, t: TokenId, p: Priv, dst: NodeId)
    ensures Handed(Record(v, t, p), t, dst) ==
      (Put(v, t, View(v, t).(priv := Some(p.(owned := false)))),
       {Out(dst, Give(t, TokenData(p.ln, p.queue, Carried(v, t), PropsOf(View(v, t).pub))))})
  {
    hide Handed, Put, View, Carried;
    HandedMeans(Record(v, t, p), t, dst);
    RecordTwice(v, t, p, p.(owned := false));
    PutRecord(v, t, p.(owned := false));
  }

  /** release, and sendToken to the head of the queue when somebody waits */
  function Passed(v: Node, t: TokenId): (Node, set<Out>)
    requires NodeOk(v) && t in v.priv
  {
    var (s, outs) := ReleaseAndPass(C(v), t, View(v, t), Carried(v, t));
    (Put(v, t, s), outs)
  }

  lemma ViewMeans(v: Node, t: TokenId)
    requires t in v.priv
    ensures View(v, t).priv == Some(v.priv[t]) && (NodeOk(v) ==> SlotOk(C(v), View(v, t)))
    ensures View(v, t).pub == if t in v.pub then Some(v.pub[t]) else None
  {
  }

  lemma PassedMeans(v: Node, t: TokenId)
    requires NodeOk(v) && t in v.priv
    ensures var p := Token.Release(v.priv[t], v.id);
      var v1 := Record(v, t, p);
      Passed(v, t) == if p.queue == [] then (v1, {}) else Handed(Record(v1, t, p.(queue := p.queue[1..])), t, p.queue[0])
  {
    hide Token.Release, Put, View, NodeOk, Handed, Record, Carried;
    ViewMeans(v, t);
    var p := Token.Release(v.priv[t], v.id);
    PutRecord(v, t, p);
    if p.queue != [] {
      var q := p.(queue := p.queue[1..]);
      RecordTwice(v, t, p, q);
      HandedRecord(v, t, q, p.queue[0]);
      RecordHas(v, t, p);
    }
  }

  lemma RecordHas(v: Node, t: TokenId, p: Priv)
    ensures t in Record(v, t, p).priv && Record(v, t, p).priv[t] == p
  {
  }

  /** requestLock in parts */
  lemma LockMeans(v: Node, t: TokenId)
    requires NodeOk(v)
    ensures var v1 := v.(pendingGrants := v.pendingGrants + {t});
      NodeOk(v1) && LockRequested(v, t) ==
        if t !in v.priv || t !in v.pub || v.priv[t].locked then (v, {})
        else if !v.startedCluster then (v1, {})
        else if v.priv[t].owned then (Grants(v1, t), {})
        else Asked(v1, t)
  {
    PutView(v, t);
    var v1 := v.(pendingGrants := v.pendingGrants + {t});
    PutPut(v, t, View(v1, t), RequestLock(C(v), t, View(v, t)).0);
  }

  lemma PutPut(v: Node, t: TokenId, s: Slot, s': Slot)
    ensures Put(Put(v, t, s), t, s') == Put(v, t, s')
  {
    forall x
      ensures View(Put(Put(v, t, s), t, s'), x) == View(Put(v, t, s'), x)
    {
      ViewPut(v, t, s, x);
      ViewPut(Put(v, t, s), t, s', x);
      ViewPut(v, t, s', x);
    }
    SameViews(Put(Put(v, t, s), t, s'), Put(v, t, s'));
  }

  /** requestUnlock in parts */
  lemma UnlockMeans(v: Node, t: TokenId)
    requires NodeOk(v) && t.Monitor?
    ensures UnlockRequested(v, t) ==
      if t !in v.priv || !v.priv[t].locked then (v, {})
      else
        var v1 := Record(v, t, v.priv[t].(locked := false));
        assert NodeOk(v1);
        Passed(v1, t)
  {
    hide ReleaseAndPass;
    PutView(v, t);
    if t in v.priv && v.priv[t].locked {
      var p := v.priv[t].(locked := false);
      PutRecord(v, t, p);
      PutPut(v, t, View(v, t).(priv := Some(p)), RequestUnlock(C(v), t, View(v, t)).0);
    }
  }

  /** packetRequestToken in parts */
  lemma RequestMeans(v: Node, t: TokenId, from: NodeId, num: U32)
    requires NodeOk(v) && from < v.n
    ensures RequestTokenIn(v, t, from, num) ==
      if !v.started then (v, {})
      else
        var v1 := if t in v.priv then v else Record(v, t, NewPriv(v.n, true, false));
        var p := Token.UpdateRequestNumber(v1.priv[t], from, num);
        var v2 := Record(v1, t, p);
        if p.owned && !p.locked && Wants(p, from) then Handed(v2, t, from) else (v2, {})
  {
    hide Put, Record, Handed, NewPriv;
    if v.started {
      var p0 := if t in v.priv then v.priv[t] else NewPriv(v.n, true, false);
      var p := Token.UpdateRequestNumber(p0, from, num);
      FreshRecord(v, t);
      RecordTwice(v, t, p0, p);
      RecordHas(v, t, p);
      PutRecord(v, t, p);
      HandedRecord(v, t, p, from);
    }
  }

  lemma FreshRecord(v: Node, t: TokenId)
    ensures t in v.priv ==> Record(v, t, v.priv[t]) == v
    ensures forall p :: t in Record(v, t, p).priv && Record(v, t, p).priv[t] == p
  {
    if t in v.priv {
      assert v.priv[t := v.priv[t]] == v.priv;
    }
  }

  /** handleNew in the steps of the source */
  lemma NewMeans(v: Node, t: TokenId, props: Props)
    requires NodeOk(v) && t.Monitor?
    ensures var v1 := v.(pub := v.pub[t := props]);
      && (forall b, b' :: NodeOk(Record(v1, t, NewPriv(v.n, b, b'))))
      && HandleNew(v, t, props) ==
        if t in v.pub then (v, {})
        else if t in v.priv then (v1, {})
        else if !v.started then
          if v.id == 0 then (Record(v1, t, NewPriv(v.n, true, true)), {})
          else Asked(Record(v1, t, NewPriv(v.n, false, false)), System)
        else if t in v.monitors then (Record(v1, t, NewPriv(v.n, true, false)), {})
        else if System in v.priv && v.priv[System].owned then
          (Record(v1, t, NewPriv(v.n, true, true)).(monitors := v.monitors + {t}), {})
        else Asked(Record(v1, t, NewPriv(v.n, false, false)), System)
  {
    hide AskFor, Declare, Put, NewPriv;
    var (created, owned) := EntryFlags(v, t);
    var v1 := v.(pub := v.pub[t := props]);
    var v2 := Record(v1, t, NewPriv(v.n, created, owned));
    DeclaredPut(v, t, props, created, owned);
    NewRecordsOk(v1, t);
    assert View(v2, System) == View(v, System);
  }

  lemma NewRecordsOk(v: Node, t: TokenId)
    requires NodeOk(v)
    ensures forall b, b' :: NodeOk(Record(v, t, NewPriv(v.n, b, b')))
  {
    hide NewPriv;
    forall b, b'
      ensures NodeOk(Record(v, t, NewPriv(v.n, b, b')))
    {
      RecordNodeOk(v, t, NewPriv(v.n, b, b'));
    }
  }

  lemma RecordNodeOk(v: Node, t: TokenId, p: Priv)
    requires NodeOk(v) && p.Sized(v.n)
    ensures NodeOk(Record(v, t, p))
  {
  }

  lemma DeclaredPut(v: Node, t: TokenId, props: Props, created: bool, owned: bool)
    requires NodeOk(v)
    ensures var v1 := v.(pub := v.pub[t := props]);
      Put(v, t, Declare(C(v), View(v, t), props, created, owned)) ==
        if t in v.pub then v else if t in v.priv then v1 else Record(v1, t, NewPriv(v.n, created, owned))
  {
    hide NewPriv;
    PutView(v, t);
  }

  /** The first half of packetGiveToken: take possession and load. */
  function Possessed(v: Node, t: TokenId, d: TokenData): Node
    requires t in v.priv
  {
    Record(v, t, Load(v.priv[t].(owned := true), v.n, d)).(pendingRequests := v.pendingRequests - {t})
  }

  /** packetGiveToken for a user monitor in parts */
  lemma GiveMeans(v: Node, t: TokenId, d: TokenData)
    requires NodeOk(v) && t.Monitor? && InRange(v.n, d)
    ensures GiveTokenIn(v, t, d) ==
      if !v.started || t !in v.priv || v.priv[t].owned then (v, {})
      else
        var v1 := Possessed(v, t, d);
        if t !in v.pub then (v1, {}) else (Grants(v1.(pub := v.pub[t := LoadProps(v.pub[t], d.props)]), t), {})
  {
    PutView(v, t);
    if v.started && t in v.priv && !v.priv[t].owned {
      var v1 := Possessed(v, t, d);
      var s := GetGive(C(v), View(v, t), d);
      var w := if t !in v.pub then v1 else Grants(v1.(pub := v.pub[t := LoadProps(v.pub[t], d.props)]), t);
      if t in v.pub {
        GrantsMeans(v1.(pub := v.pub[t := LoadProps(v.pub[t], d.props)]), t);
      }
      forall x
        ensures View(Put(v, t, s), x) == View(w, x)
      {
        ViewPut(v, t, s, x);
      }
      SameViews(Put(v, t, s), w);
    }
  }

  predicate InRange(n: nat, d: TokenData) {
    forall x: nat :: x in d.queue ==> x < n
  }

  // ---------------------------------------------------------------- the loops over all tokens

  /** One round of the loop of packetGiveToken. */
  function AdoptedOne(v: Node, t: TokenId): (Node, set<Out>)
    requires NodeOk(v)
  {
    if t !in v.priv || v.priv[t].created then (v, {})
    else
      var (s, outs) := Adopt(C(v), t, View(v, t), t in v.monitors);
      (Put(v, t, s).(monitors := v.monitors + {t}), outs)
  }

  lemma AdoptedMeans(v: Node, t: TokenId)
    requires NodeOk(v) && t in v.priv && !v.priv[t].created
    ensures var v1 := Record(v, t, v.priv[t].(created := true));
      var v2 := Record(v1, t, v1.priv[t].(owned := t !in v.monitors));
      NodeOk(v2) && AdoptedOne(v, t) ==
        if t !in v.monitors then (Grants(v2.(monitors := v.monitors + {t}), t), {})
        else if t in v.pendingGrants then Asked(v2, t)
        else (v2, {})
  {
    hide AskFor, Put, Granted, Record, Adopt, View;
    var p := v.priv[t].(created := true, owned := t !in v.monitors);
    var v2 := Record(v, t, p);
    RecordHas(v, t, v.priv[t].(created := true));
    RecordTwice(v, t, v.priv[t].(created := true), p);
    ViewMeans(v, t);
    PutRecord(v, t, p);
    RecordPlain(v, t, p);
    if t in v.monitors {
      AdoptedKnown(v, t);
    } else {
      AdoptedMint(v, t);
    }
  }

  lemma RecordPlain(v: Node, t: TokenId, p: Priv)
    requires NodeOk(v) && p.Sized(v.n)
    ensures var v2 := Record(v, t, p);
      NodeOk(v2) && C(v2) == C(v) && v2.monitors == v.monitors && v2.pendingGrants == v.pendingGrants
  {
  }

  /** The entry's monitor exists. */
  lemma AdoptedKnown(v: Node, t: TokenId)
    requires NodeOk(v) && t in v.priv && !v.priv[t].created && t in v.monitors
    ensures var v2 := Record(v, t, v.priv[t].(created := true, owned := false));
      NodeOk(v2) && AdoptedOne(v, t) == if t in v.pendingGrants then Asked(v2, t) else (v2, {})
  {
    hide AskFor, Put, Record;
    var p := v.priv[t].(created := true, owned := false);
    var v2 := Record(v, t, p);
    RecordPlain(v, t, p);
    PutRecord(v, t, p);
    PutPut(v, t, View(v2, t), AskFor(C(v2), t, View(v2, t)).0);
    assert v.monitors + {t} == v.monitors;
    PutMonitors(v, t, v.monitors, Adopt(C(v), t, View(v, t), true).0);
  }

  /** The entry's monitor is created here. */
  lemma AdoptedMint(v: Node, t: TokenId)
    requires NodeOk(v) && t in v.priv && !v.priv[t].created && t !in v.monitors
    ensures var v2 := Record(v, t, v.priv[t].(created := true, owned := true));
      NodeOk(v2) && AdoptedOne(v, t) == (Grants(v2.(monitors := v.monitors + {t}), t), {})
  {
    hide Put, Granted, Record;
    var p := v.priv[t].(created := true, owned := true);
    var v2 := Record(v, t, p);
    RecordPlain(v, t, p);
    PutRecord(v, t, p);
    PutPut(v, t, View(v2, t), Granted(View(v2, t)));
    assert Adopt(C(v), t, View(v, t), false) == (Granted(View(v2, t)), {});
    PutMonitors(v2, t, v.monitors + {t}, Granted(View(v2, t)));
  }

  lemma PutMonitors(v: Node, t: TokenId, mons: set<TokenId>, s: Slot)
    ensures Put(v, t, s).(monitors := mons) == Put(v.(monitors := mons), t, s) && View(v.(monitors := mons), t) == View(v, t)
    ensures Put(v, t, s).monitors == v.monitors
  {
  }

  /** The node after some rounds. */
  ghost predicate AdoptedSome(v0: Node, v: Node, done: set<TokenId>) {
    && NodeOk(v0)
    && SameRest(v, v0.(monitors := v.monitors)) && v.monitors == v0.monitors + (Unsettled(v0) * done)
    && forall t :: View(v, t) == if t in done && t in Unsettled(v0) then Adopt(C(v0), t, View(v0, t), t in v0.monitors).0 else View(v0, t)
  }

  ghost function AdoptOuts(v0: Node, done: set<TokenId>): set<Out>
    requires NodeOk(v0)
  {
    set t, o | t in Unsettled(v0) * done && o in Adopt(C(v0), t, View(v0, t), t in v0.monitors).1 :: o
  }

  lemma AdoptRound(v0: Node, v: Node, done: set<TokenId>, t: TokenId)
    requires AdoptedSome(v0, v, done) && NodeOk(v) && t !in done && t != System
    ensures AdoptedSome(v0, AdoptedOne(v, t).0, done + {t})
    ensures AdoptedOne(v, t).1 == if t in Unsettled(v0) then Adopt(C(v0), t, View(v0, t), t in v0.monitors).1 else {}
  {
    hide Adopt, Put, NodeOk;
    assert View(v, t) == View(v0, t);
    assert t in v.monitors <==> t in v0.monitors;
    assert t in Unsettled(v0) <==> View(v0, t).priv.Some? && !View(v0, t).priv.value.created;
    assert t in v.priv && !v.priv[t].created <==> View(v, t).priv.Some? && !View(v, t).priv.value.created;
    RoundSlot(v, t);
    var w := AdoptedOne(v, t).0;
    assert w.monitors == v0.monitors + (Unsettled(v0) * (done + {t}));
  }

  lemma RoundSlot(v: Node, t: TokenId)
    requires NodeOk(v)
    ensures var (w, outs) := AdoptedOne(v, t);
      if t !in v.priv || v.priv[t].created then w == v && outs == {}
      else
        && SameRest(w, v.(monitors := v.monitors + {t})) && outs == Adopt(C(v), t, View(v, t), t in v.monitors).1
        && forall x :: View(w, x) == if x == t then Adopt(C(v), t, View(v, t), t in v.monitors).0 else View(v, x)
  {
    hide Adopt;
    var s := Adopt(C(v), t, View(v, t), t in v.monitors).0;
    forall x
      ensures View(Put(v, t, s), x) == if x == t then s else View(v, x)
    {
      ViewPut(v, t, s, x);
    }
  }

  lemma AdoptOutsGrow(v0: Node, done: set<TokenId>, t: TokenId)
    requires NodeOk(v0) && t !in done
    ensures var more := if t in Unsettled(v0) then Adopt(C(v0), t, View(v0, t), t in v0.monitors).1 else {};
      AdoptOuts(v0, done + {t}) == AdoptOuts(v0, done) + more && AdoptOuts(v0, done) !! more
  {
    hide Adopt, Unsettled;
    var us := Unsettled(v0);
    assert us * (done + {t}) == us * done + if t in us then {t} else {};
    AdoptTalks(v0, t);
    forall o | o in AdoptOuts(v0, done)
      ensures o.msg.Request? && o.msg.t in done
    {
      var x :| x in us * done && o in Adopt(C(v0), x, View(v0, x), x in v0.monitors).1;
      AdoptTalks(v0, x);
    }
  }

  lemma AdoptTalks(v: Node, t: TokenId)
    requires NodeOk(v)
    ensures forall o :: o in Adopt(C(v), t, View(v, t), t in v.monitors).1 ==> o.msg.Request? && o.msg.t == t
  {
  }

  /** packetGiveToken for the system token, once every round is done: release what is left to pass on. */
  lemma SystemMeans(v: Node, d: TokenData, w: Node, done: set<TokenId>)
    requires NodeOk(v) && v.started && System in v.priv && !v.priv[System].owned && InRange(v.n, d) && NodeOk(w)
    requires AdoptedSome(Possessed(v, System, d).(monitors := d.monitors), w, done) && v.priv.Keys - {System} <= done
    ensures System in w.priv && GiveTokenIn(v, System, d).0 == Passed(w, System).0
    ensures var outs := AdoptOuts(Possessed(v, System, d).(monitors := d.monitors), done);
      outs !! Passed(w, System).1 && GiveTokenIn(v, System, d).1 == outs + Passed(w, System).1
  {
    hide Adopt, ReleaseAndPass, NodeOk, AdoptAll, Load, Put;
    var v1 := Possessed(v, System, d).(monitors := d.monitors);
    PossessedViews(v, d);
    assert Unsettled(v1) == Unsettled(v);
    assert Unsettled(v) * done == Unsettled(v);
    assert View(w, System) == View(v1, System);
    assert System in w.priv;
    NodeSlot(v);
    var (a, outs1) := AdoptAll(v, d.monitors);
    AdoptAllRest(v, d.monitors);
    var mons := d.monitors + Unsettled(v);
    TakenOk(v, d);
    var (s, outs2) := ReleaseAndPass(C(v), System, Taken(C(v), View(v, System), d), mons);
    assert Passed(w, System) == (Put(w, System, s), outs2);
    forall t
      ensures View(Put(w, System, s), t) == View(Put(a, System, s).(monitors := mons), t)
    {
      ViewPut(w, System, s, t);
      ViewPut(a, System, s, t);
      ViewAdoptAll(v, d.monitors, t);
      if t != System && t !in Unsettled(v) {
        SettledStays(v, d.monitors, t);
      }
      PutMonitors(Put(a, System, s), t, mons, s);
    }
    PutRest(w, System, s);
    PutRest(a, System, s);
    SameViews(Put(w, System, s), Put(a, System, s).(monitors := mons));
    assert AdoptOuts(v1, done) == outs1;
    SystemTalks(v, d, mons);
    OutsApart(v1, done, outs2);
  }

  lemma SettledStays(v: Node, mons: set<TokenId>, t: TokenId)
    requires NodeOk(v) && t != System && t !in Unsettled(v)
    ensures Adopt(C(v), t, View(v, t), t in mons).0 == View(v, t)
  {
  }

  lemma TakenOk(v: Node, d: TokenData)
    requires NodeOk(v) && System in v.priv && !v.priv[System].owned && InRange(v.n, d)
    ensures SlotOk(C(v), Taken(C(v), View(v, System), d))
  {
  }

  lemma NodeSlot(v: Node)
    requires NodeOk(v)
    ensures forall t :: SlotOk(C(v), View(v, t))
  {
  }

  lemma PossessedViews(v: Node, d: TokenData)
    requires System in v.priv
    ensures var v1 := Possessed(v, System, d).(monitors := d.monitors);
      C(v1) == C(v) && forall t :: View(v1, t) == if t == System then View(v, System).(priv := Some(Load(v.priv[System].(owned := true), v.n, d)), pendReq := false) else View(v, t)
  {
    hide Load;
  }

  lemma PutRest(v: Node, t: TokenId, s: Slot)
    ensures SameRest(Put(v, t, s), v)
  {
  }

  lemma AdoptAllRest(v: Node, mons: set<TokenId>)
    requires NodeOk(v)
    ensures SameRest(AdoptAll(v, mons).0, v)
    ensures AdoptAll(v, mons).1 == set t, o | t in Unsettled(v) && o in Adopt(C(v), t, View(v, t), t in mons).1 :: o
  {
    hide Adopt;
  }

  lemma SystemTalks(v: Node, d: TokenData, mons: set<TokenId>)
    requires NodeOk(v) && System in v.priv && !v.priv[System].owned && InRange(v.n, d)
    ensures forall o :: o in ReleaseAndPass(C(v), System, Taken(C(v), View(v, System), d), mons).1 ==> o.msg.Give?
  {
  }

  lemma OutsApart(v0: Node, done: set<TokenId>, outs: set<Out>)
    requires NodeOk(v0) && forall o :: o in outs ==> o.msg.Give?
    ensures AdoptOuts(v0, done) !! outs
  {
    hide Adopt, Unsettled;
    forall o | o in AdoptOuts(v0, done)
      ensures o.msg.Request?
    {
      var x :| x in Unsettled(v0) * done && o in Adopt(C(v0), x, View(v0, x), x in v0.monitors).1;
      AdoptTalks(v0, x);
    }
  }

  /** The first loop of packetClusterHandshake, one token at a time. */
  function UpGranted(s: Slot): Slot {
    if s.priv.Some? && s.priv.value.owned then Granted(s) else s
  }

  ghost predicate GrantedSome(v0: Node, v: Node, done: set<TokenId>) {
    SameRest(v, v0) && forall t :: View(v, t) == if t in done then UpGranted(View(v0, t)) else View(v0, t)
  }

  /** The second loop: the requests that were waiting go out. */
  ghost predicate RequestedSome(v0: Node, v: Node, done: set<TokenId>) {
    NodeOk(v0) && SameRest(v, v0) && forall t :: View(v, t) == if t in done then ComeUp(C(v0), t, View(v0, t)).0 else UpGranted(View(v0, t))
  }

  ghost function UpOuts(v0: Node, done: set<TokenId>): set<Out>
    requires NodeOk(v0)
  {
    set t, o | t in done && o in ComeUp(C(v0), t, View(v0, t)).1 :: o
  }

  lemma GrantRound(v0: Node, v: Node, done: set<TokenId>, t: TokenId)
    requires GrantedSome(v0, v, done) && t !in done
    ensures GrantedSome(v0, if t in v.priv && v.priv[t].owned then Grants(v, t) else v, done + {t})
  {
    hide Granted;
    assert View(v, t) == View(v0, t);
    forall x
      ensures View(Grants(v, t), x) == if x == t then Granted(View(v, t)) else View(v, x)
    {
      ViewPut(v, t, Granted(View(v, t)), x);
    }
    PutRest(v, t, Granted(View(v, t)));
  }

  lemma GrantsDone(v0: Node, v: Node)
    requires NodeOk(v0) && GrantedSome(v0, v, v0.pendingGrants)
    ensures RequestedSome(v0, v, {}) && v.pendingRequests == v0.pendingRequests
  {
    forall t
      ensures View(v, t) == UpGranted(View(v0, t)) && (t in v.pendingRequests <==> t in v0.pendingRequests)
    {
      assert View(v, t).pendReq == View(v0, t).pendReq;
    }
  }

  lemma RequestRound(v0: Node, v: Node, done: set<TokenId>, t: TokenId)
    requires RequestedSome(v0, v, done) && t !in done && t in v0.pendingRequests && t in v0.priv && NodeOk(v)
    ensures t in v.priv && |v.priv[t].rn| == v.n
    ensures var p := Token.IncrementRequestNumber(v.priv[t], v.id);
      && RequestedSome(v0, Record(v, t, p), done + {t})
      && S.Broadcast(v.peers, Request(t, p.rn[v.id])) == ComeUp(C(v0), t, View(v0, t)).1
  {
    hide Granted, Token.IncrementRequestNumber;
    var u := View(v, t);
    assert u == UpGranted(View(v0, t));
    GrantedKeeps(View(v0, t));
    assert t in v.priv;
    var p := Token.IncrementRequestNumber(v.priv[t], v.id);
    PutRecord(v, t, p);
    forall x
      ensures View(Record(v, t, p), x) == if x == t then u.(priv := Some(p)) else View(v, x)
    {
      ViewPut(v, t, u.(priv := Some(p)), x);
    }
  }

  lemma GrantedKeeps(s: Slot)
    ensures UpGranted(s).pendReq == s.pendReq && UpGranted(s).priv.Some? == s.priv.Some?
  {
  }

  lemma UpOutsGrow(v0: Node, done: set<TokenId>, t: TokenId)
    requires NodeOk(v0) && t !in done
    ensures UpOuts(v0, done + {t}) == UpOuts(v0, done) + ComeUp(C(v0), t, View(v0, t)).1
    ensures UpOuts(v0, done) !! ComeUp(C(v0), t, View(v0, t)).1
  {
    hide ComeUp;
    UpTalks(v0, t);
    forall o | o in UpOuts(v0, done)
      ensures o.msg.Request? && o.msg.t in done
    {
      var x :| x in done && o in ComeUp(C(v0), x, View(v0, x)).1;
      UpTalks(v0, x);
    }
    UpOutsSplit(v0, done, t);
  }

  lemma UpOutsSplit(v0: Node, done: set<TokenId>, t: TokenId)
    requires NodeOk(v0)
    ensures UpOuts(v0, done + {t}) == UpOuts(v0, done) + ComeUp(C(v0), t, View(v0, t)).1
  {
    hide ComeUp, NodeOk;
  }

  lemma UpTalks(v: Node, t: TokenId)
    requires NodeOk(v)
    ensures forall o :: o in ComeUp(C(v), t, View(v, t)).1 ==> o.msg.Request? && o.msg.t == t
    ensures t !in v.pendingRequests || t !in v.priv ==> ComeUp(C(v), t, View(v, t)) == (UpGranted(View(v, t)), {})
  {
  }

  lemma UpMeans(v0: Node, v: Node)
    requires RequestedSome(v0, v, v0.pendingRequests)
    ensures v == ComeUpAll(v0).0 && UpOuts(v0, v0.pendingRequests) == ComeUpAll(v0).1
  {
    hide ComeUp;
    forall t
      ensures View(v, t) == View(ComeUpAll(v0).0, t)
    {
      UpTalks(v0, t);
      ViewComeUpAll(v0, t);
    }
    SameViews(v, ComeUpAll(v0).0);
    forall t | t !in v0.pendingRequests || t !in v0.priv
      ensures ComeUp(C(v0), t, View(v0, t)).1 == {}
    {
      UpTalks(v0, t);
    }
  }

  lemma PlainLoad(bound: Props, m: Props)
    ensures Plain(bound) ==> Plain(LoadProps(bound, m))
  {
  }

  lemma DiscardMeans(v: Node, t: TokenId, d: TokenData)
    requires NodeOk(v) && InRange(v.n, d)
    ensures !v.started || t !in v.priv || v.priv[t].owned ==> GiveTokenIn(v, t, d) == (v, {})
  {
    PutView(v, t);
  }

  lemma AdoptStart(v0: Node)
    requires NodeOk(v0)
    ensures AdoptedSome(v0, v0, {}) && AdoptOuts(v0, {}) == {}
  {
  }

  lemma GrantsStart(v0: Node)
    ensures GrantedSome(v0, v0, {})
  {
  }

  lemma SameStarted(v0: Node, v: Node)
    requires RequestedSome(v0, v, {})
    ensures v.started == v0.started
  {
  }

  lemma UpStart(v0: Node)
    requires NodeOk(v0)
    ensures UpOuts(v0, {}) == {}
  {
  }

  lemma SomeThere(v0: Node, v: Node, done: set<TokenId>, t: TokenId)
    requires RequestedSome(v0, v, done) && NodeOk(v0) && t in v.priv && t !in done
    ensures t in v0.priv && SlotOk(C(v0), View(v0, t))
  {
    assert View(v, t) == UpGranted(View(v0, t));
    GrantedKeeps(View(v0, t));
  }
}
