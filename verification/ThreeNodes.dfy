/** A cluster of three nodes and one monitor, M, step by step. */
module ThreeNodes {
  import opened Basics
  import opened Properties
  import opened Token
  import opened Slot
  import opened Node
  import opened World
  import opened UserEvents
  import opened Events
  import opened Handlers
  import opened Cluster
  import opened Tokens

  const M: TokenId := Monitor([])
  const NONE: Slot := Slot(None, None, false, false)
  const UNBOUND: TokenId -> set<Str> := _ => {}

  function Sys(ln: seq<U32>, rn: seq<U32>, owned: bool, asked: bool): Slot {
    Slot(Some(Priv(ln, rn, [], true, owned, false)), None, asked, false)
  }

  function Mon(ln: seq<U32>, rn: seq<U32>, created: bool, owned: bool, locked: bool, asked: bool, waits: bool): Slot {
    Slot(Some(Priv(ln, rn, [], created, owned, locked)), Some(map[]), asked, waits)
  }

  /** M at a node that has heard of it in requests only. */
  function Noted(rn: seq<U32>): Slot {
    Slot(Some(Priv([0, 0, 0], rn, [], true, false, false)), None, false, false)
  }

  /** A node that knows of the system token and of M only. */
  function N(id: NodeId, started: bool, up: bool, h: nat, peers: set<NodeId>, mons: set<TokenId>, sys: Slot, m: Slot): Node {
    Node(id, 3, started, up, h, peers, PutMap(PutMap(map[], System, sys.priv), M, m.priv), mons, PutMap(PutMap(map[], System, sys.pub), M, m.pub),
         PutSet(PutSet({}, System, sys.pendReq), M, m.pendReq), PutSet(PutSet({}, System, sys.pendGrant), M, m.pendGrant))
  }

  function OthersOf(id: NodeId): set<NodeId> {
    if id == 0 then {1, 2} else if id == 1 then {0, 2} else {0, 1}
  }

  /** A node that has started and is connected to both others. */
  function Started(id: NodeId, h: nat, mons: set<TokenId>, sys: Slot, m: Slot): Node {
    N(id, true, h >= 2, h, OthersOf(id), mons, sys, m)
  }

  predicate Small3(s: Slot) {
    s.priv.Some? ==> |s.priv.value.ln| == 3 && |s.priv.value.rn| == 3 && s.priv.value.queue == []
  }

  lemma NView(id: NodeId, started: bool, up: bool, h: nat, peers: set<NodeId>, mons: set<TokenId>, sys: Slot, m: Slot, t: TokenId)
    ensures View(N(id, started, up, h, peers, mons, sys, m), t) == if t == M then m else if t == System then sys else NONE
  {
    var v0 := Node(id, 3, started, up, h, peers, map[], mons, map[], {}, {});
    ViewPut(v0, System, sys, t);
    ViewPut(Put(v0, System, sys), M, m, t);
  }

  lemma NOk(id: NodeId, started: bool, up: bool, h: nat, peers: set<NodeId>, mons: set<TokenId>, sys: Slot, m: Slot)
    requires id < 3 && peers <= Range(3) && Small3(sys) && Small3(m)
    ensures NodeOk(N(id, started, up, h, peers, mons, sys, m))
  {
    var v := N(id, started, up, h, peers, mons, sys, m);
    forall t | t in v.priv
      ensures v.priv[t].Sized(3)
    {
      NView(id, started, up, h, peers, mons, sys, m, t);
      assert View(v, t).priv == Some(v.priv[t]);
    }
  }

  /** A node is known by its parts. */
  lemma NIs(v: Node, id: NodeId, started: bool, up: bool, h: nat, peers: set<NodeId>, mons: set<TokenId>, sys: Slot, m: Slot)
    requires v.id == id && v.n == 3 && v.started == started && v.startedCluster == up && v.handshakes == h && v.peers == peers && v.monitors == mons
    requires forall t :: View(v, t) == if t == M then m else if t == System then sys else NONE
    ensures v == N(id, started, up, h, peers, mons, sys, m)
  {
    forall t
      ensures View(v, t) == View(N(id, started, up, h, peers, mons, sys, m), t)
    {
      NView(id, started, up, h, peers, mons, sys, m, t);
    }
    SameViews(v, N(id, started, up, h, peers, mons, sys, m));
  }

  // ---------------------------------------------------------------- small calculations

  lemma Zeros(created: bool, owned: bool)
    ensures NewPriv(3, created, owned) == Priv([0, 0, 0], [0, 0, 0], [], created, owned, false)
  {
  }

  lemma Pair(i: NodeId, j: NodeId, m: Msg)
    ensures Broadcast({i, j}, m) == {Out(i, m), Out(j, m)}
  {
  }

  /** Release in a cluster of three when nobody else wants the token. */
  lemma ReleaseAlone(p: Priv, node: NodeId)
    requires |p.ln| == 3 && |p.rn| == 3 && node < 3 && p.queue == []
    requires forall x: nat :: x < 3 && x != node ==> p.rn[x] == p.ln[x] < U32_MAX
    ensures Token.Release(p, node) == p.(ln := p.ln[node := p.rn[node]])
  {
    NoneLeft(p.(ln := p.ln[node := p.rn[node]]), 3);
  }

  /** Release in a cluster of three when just one other node wants the token. */
  lemma ReleaseOne(p: Priv, node: NodeId, x: NodeId)
    requires |p.ln| == 3 && |p.rn| == 3 && node < 3 && x < 3 && x != node && p.queue == []
    requires forall y: nat :: y < 3 && y != node ==> p.ln[y] < U32_MAX && (p.rn[y] == p.ln[y] + if y == x then 1 else 0)
    ensures Token.Release(p, node) == p.(ln := p.ln[node := p.rn[node]], queue := [x])
    ensures [x][1..] == []
  {
    AloneInLine(p.(ln := p.ln[node := p.rn[node]]), x, 3);
  }

  // ---------------------------------------------------------------- what each handler does to such a node

  lemma Connects(v: Node, j: NodeId)
    ensures var (w, outs) := HandleConnect(v, j);
      var last := |v.peers + {j}| >= v.n - 1 && !v.started;
      && SameRest(w, v.(peers := v.peers + {j}, started := v.started || last, monitors := w.monitors))
      && w.monitors == (if last then (if v.id == 0 then set t | t in v.priv && t != System else {}) else v.monitors)
      && (forall t :: View(w, t) == if last && t == System && System !in v.priv then View(v, t).(priv := Some(NewPriv(v.n, true, v.id == 0))) else View(v, t))
      && outs == if last then Broadcast(v.peers + {j}, Handshake) else {}
  {
  }

  lemma Handshakes(v: Node)
    requires NodeOk(v) && forall t :: Still(View(v, t))
    ensures var (w, outs) := HandshakeIn(v);
      && SameRest(w, v.(handshakes := v.handshakes + 1, startedCluster := v.startedCluster || v.handshakes + 1 >= v.n - 1))
      && (forall t :: View(w, t) == View(v, t)) && outs == {}
  {
    hide ComeUp;
    var u := v.(handshakes := v.handshakes + 1, startedCluster := true);
    forall t
      ensures ComeUp(C(u), t, View(u, t)) == (View(v, t), {})
    {
      assert View(u, t) == View(v, t) && SlotOk(C(v), View(v, t));
      Quiet(C(u), t, View(u, t));
    }
    forall t
      ensures View(ComeUpAll(u).0, t) == View(v, t)
    {
      ViewComeUpAll(u, t);
    }
  }

  /** Coming up does nothing here: nothing was asked for, and nobody waits for a token that is here. */
  predicate Still(s: Slot) {
    !s.pendReq && (s.pendGrant ==> s.priv.Some? && !s.priv.value.owned)
  }

  lemma Quiet(c: Ctx, t: TokenId, s: Slot)
    requires SlotOk(c, s) && Still(s)
    ensures ComeUp(c, t, s) == (s, {})
  {
  }

  lemma Settling(v: Node, d: TokenData)
    requires NodeOk(v) && Carries(v.n, Give(System, d)) && v.started && Accepts(View(v, System))
    requires forall t :: View(v, t).pendGrant && Open(View(v, t)) ==> t !in d.monitors
    ensures var (w, outs) := GiveTokenIn(v, System, d);
      && SameRest(w, v.(monitors := Settled(v, d)))
      && outs == GetSystem(C(v), View(v, System), d, Settled(v, d)).1
      && forall t :: View(w, t) == if t == System then GetSystem(C(v), View(v, System), d, Settled(v, d)).0 else Adopt(C(v), t, View(v, t), t in d.monitors).0
  {
    hide GetSystem, Adopt, AdoptAll;
    forall t
      ensures View(GiveTokenIn(v, System, d).0, t) == if t == System then GetSystem(C(v), View(v, System), d, Settled(v, d)).0 else Adopt(C(v), t, View(v, t), t in d.monitors).0
    {
      SystemGiveViews(v, d, t);
    }
    AdoptAllRest(v, d.monitors);
    forall t
      ensures Adopt(C(v), t, View(v, t), t in d.monitors).1 == {}
    {
      AdoptSilent(C(v), t, View(v, t), t in d.monitors);
    }
    assert AdoptAll(v, d.monitors).1 == {};
  }

  lemma AdoptSilent(c: Ctx, t: TokenId, s: Slot, b: bool)
    requires SlotOk(c, s) && (s.pendGrant && Open(s) ==> !b)
    ensures Adopt(c, t, s, b).1 == {}
  {
  }

  lemma OnlyM(v: Node)
    requires forall t :: t != System && t != M ==> View(v, t) == NONE
    ensures Unsettled(v) == if Open(View(v, M)) then {M} else {}
  {
    assert M != System;
    forall t
      ensures t in Unsettled(v) <==> t == M && Open(View(v, M))
    {
      assert t in v.priv <==> View(v, t).priv.Some?;
    }
  }

  lemma ConnectN(id: NodeId, peers: set<NodeId>, j: NodeId)
    ensures HandleConnect(N(id, false, false, 0, peers, {}, NONE, NONE), j) ==
      if |peers + {j}| >= 2 then (N(id, true, false, 0, peers + {j}, {}, Sys([0, 0, 0], [0, 0, 0], id == 0, false), NONE), Broadcast(peers + {j}, Handshake))
      else (N(id, false, false, 0, peers + {j}, {}, NONE, NONE), {})
  {
    hide View;
    var v := N(id, false, false, 0, peers, {}, NONE, NONE);
    var last := |peers + {j}| >= 2;
    var w := HandleConnect(v, j).0;
    Connects(v, j);
    Zeros(true, id == 0);
    NBlank(id, peers);
    forall t
      ensures View(w, t) == if t == System && last then Sys([0, 0, 0], [0, 0, 0], id == 0, false) else NONE
    {
      NView(id, false, false, 0, peers, {}, NONE, NONE, t);
    }
    NIs(w, id, last, false, 0, peers + {j}, {}, if last then Sys([0, 0, 0], [0, 0, 0], id == 0, false) else NONE, NONE);
  }

  lemma NBlank(id: NodeId, peers: set<NodeId>)
    ensures N(id, false, false, 0, peers, {}, NONE, NONE).priv == map[]
  {
  }

  lemma HandshakeN(id: NodeId, h: nat, sys: Slot, m: Slot)
    requires id < 3 && Small3(sys) && Small3(m) && Still(sys) && Still(m) && h < 2
    ensures NodeOk(Started(id, h, {}, sys, m))
    ensures HandshakeIn(Started(id, h, {}, sys, m)) == (Started(id, h + 1, {}, sys, m), {})
  {
    hide View, NodeOk;
    var v := Started(id, h, {}, sys, m);
    NOk(id, true, h >= 2, h, OthersOf(id), {}, sys, m);
    forall t
      ensures View(v, t) == if t == M then m else if t == System then sys else NONE
    {
      NView(id, true, h >= 2, h, OthersOf(id), {}, sys, m, t);
    }
    Handshakes(v);
    NIs(HandshakeIn(v).0, id, true, h + 1 >= 2, h + 1, OthersOf(id), {}, sys, m);
  }

  /** The node's context, as its handlers see it. */
  function CtxOf(id: NodeId, h: nat): Ctx {
    Ctx(id, 3, h >= 2, OthersOf(id))
  }

  function Ctx3(id: NodeId): Ctx {
    CtxOf(id, 2)
  }

  lemma NewN(id: NodeId, mons: set<TokenId>, sys: Slot)
    requires id < 3 && Small3(sys) && sys.priv.Some? && M !in mons
    ensures NodeOk(Started(id, 2, mons, sys, NONE)) && SlotOk(Ctx3(id), sys)
    ensures HandleNew(Started(id, 2, mons, sys, NONE), M, map[]) ==
      if sys.priv.value.owned then (Started(id, 2, mons + {M}, sys, Mon([0, 0, 0], [0, 0, 0], true, true, false, false, false)), {})
      else (Started(id, 2, mons, AskFor(Ctx3(id), System, sys).0, Mon([0, 0, 0], [0, 0, 0], false, false, false, false, false)), AskFor(Ctx3(id), System, sys).1)
  {
    hide NodeOk, AskFor;
    var v := Started(id, 2, mons, sys, NONE);
    NOk(id, true, true, 2, OthersOf(id), mons, sys, NONE);
    forall t
      ensures View(v, t) == if t == System then sys else NONE
    {
      NView(id, true, true, 2, OthersOf(id), mons, sys, NONE, t);
    }
    var owned := sys.priv.value.owned;
    assert EntryFlags(v, M) == (owned, owned) by { assert View(v, System).priv == Some(v.priv[System]); }
    Zeros(owned, owned);
    NewViews(v, M, map[]);
    NewRest(v, M, map[]);
    var w := HandleNew(v, M, map[]).0;
    NIs(w, id, true, true, 2, OthersOf(id), if owned then mons + {M} else mons, if owned then sys else AskFor(Ctx3(id), System, sys).0,
        Mon([0, 0, 0], [0, 0, 0], owned, owned, false, false, false));
  }

  lemma NewRest(v: Node, t: TokenId, props: Props)
    requires NodeOk(v) && v.started && t !in v.pub && t !in v.priv
    ensures var w := HandleNew(v, t, props).0;
      SameRest(w, v.(monitors := if EntryFlags(v, t).1 then v.monitors + {t} else v.monitors))
  {
    hide AskFor, NodeOk, SlotOk;
    AskOk(v);
  }

  /** Handlers that replace one slot. */
  lemma PutN(id: NodeId, h: nat, mons: set<TokenId>, sys: Slot, m: Slot, s: Slot)
    requires id < 3 && Small3(sys) && Small3(m)
    ensures var v := Started(id, h, mons, sys, m);
      && NodeOk(v) && C(v) == CtxOf(id, h) && v.started && v.monitors == mons && SlotOk(CtxOf(id, h), sys) && SlotOk(CtxOf(id, h), m)
      && View(v, System) == sys && View(v, M) == m
      && Put(v, System, s) == Started(id, h, mons, s, m) && Put(v, M, s) == Started(id, h, mons, sys, s)
  {
    hide NodeOk;
    var v := Started(id, h, mons, sys, m);
    NOk(id, true, h >= 2, h, OthersOf(id), mons, sys, m);
    forall t
      ensures View(v, t) == if t == M then m else if t == System then sys else NONE
      ensures View(Put(v, System, s), t) == if t == M then m else if t == System then s else NONE
      ensures View(Put(v, M, s), t) == if t == M then s else if t == System then sys else NONE
    {
      NView(id, true, h >= 2, h, OthersOf(id), mons, sys, m, t);
      ViewPut(v, System, s, t);
      ViewPut(v, M, s, t);
    }
    NIs(Put(v, System, s), id, true, h >= 2, h, OthersOf(id), mons, s, m);
    NIs(Put(v, M, s), id, true, h >= 2, h, OthersOf(id), mons, sys, s);
  }

  lemma NewNoted(id: NodeId, h: nat, mons: set<TokenId>, sys: Slot, m: Slot)
    requires id < 3 && Small3(sys) && Small3(m) && m.priv.Some? && m.pub.None?
    ensures NodeOk(Started(id, h, mons, sys, m))
    ensures HandleNew(Started(id, h, mons, sys, m), M, map[]) == (Started(id, h, mons, sys, m.(pub := Some(map[]))), {})
  {
    hide NodeOk, View, Put, EntryFlags;
    PutN(id, h, mons, sys, m, m.(pub := Some(map[])));
  }

  /** Nobody asks for a lock on what the system token settles. */
  predicate Silent(sys: Slot, m: Slot, d: TokenData) {
    !sys.pendGrant && (m.pendGrant && Open(m) ==> M !in d.monitors)
  }

  /** packetGiveToken for the system token */
  lemma SettleN(id: NodeId, mons: set<TokenId>, sys: Slot, m: Slot, d: TokenData, new_: set<TokenId>)
    requires id < 3 && Small3(sys) && Small3(m) && Accepts(sys) && Silent(sys, m, d) && |d.ln| == 3 && d.queue == []
    requires new_ == d.monitors + if Open(m) then {M} else {}
    ensures SlotOk(Ctx3(id), sys) && SlotOk(Ctx3(id), m) && NodeOk(Started(id, 2, mons, sys, m))
    ensures var (s, outs) := GetSystem(Ctx3(id), sys, d, new_);
      GiveTokenIn(Started(id, 2, mons, sys, m), System, d) == (Started(id, 2, new_, s, Adopt(Ctx3(id), M, m, M in d.monitors).0), outs)
  {
    hide NodeOk, GetSystem, AskFor, GiveTokenIn, Unsettled;
    var v := Started(id, 2, mons, sys, m);
    PutN(id, 2, mons, sys, m, NONE);
    forall t
      ensures View(v, t) == if t == M then m else if t == System then sys else NONE
    {
      NView(id, true, true, 2, OthersOf(id), mons, sys, m, t);
    }
    Settling(v, d);
    OnlyM(v);
    var r := GetSystem(Ctx3(id), sys, d, new_);
    NIs(GiveTokenIn(v, System, d).0, id, true, true, 2, OthersOf(id), new_, r.0, Adopt(Ctx3(id), M, m, M in d.monitors).0);
  }

  // ---------------------------------------------------------------- one event at such a node

  datatype Local = Joining(peers: set<NodeId>) | Running(h: nat, mons: set<TokenId>, sys: Slot, m: Slot)

  function NodeOf(id: NodeId, l: Local): Node {
    match l
    case Joining(peers) => N(id, false, false, 0, peers, {}, NONE, NONE)
    case Running(h, mons, sys, m) => Started(id, h, mons, sys, m)
  }

  function SlotFor(l: Local, t: TokenId): Slot
    requires l.Running?
  {
    if t == System then l.sys else l.m
  }

  function Set(l: Local, t: TokenId, s: Slot): Local
    requires l.Running?
  {
    if t == System then l.(sys := s) else l.(m := s)
  }

  /** The events that the runs are made of. */
  predicate Plays(id: NodeId, l: Local, a: Act) {
    id < 3
    && match a
       case Connected(_, j) => l.Joining? && (|l.peers + {j}| >= 2 ==> l.peers + {j} == OthersOf(id))
       case NewMonitor(_, t, props) => Begun(l) && t == M && props == map[] && Fresh3(l)
       case LockAt(_, t) => Begun(l) && t == M
       case UnlockAt(_, t) => Begun(l) && t == M
       case WriteAt(_, _, _) => false
       case Deliver(p) =>
         match p.msg
         case Handshake => Begun(l) && l.h < 2 && l.mons == {} && Still(l.sys) && Still(l.m)
         case Request(t, _) => Begun(l) && (t == M || t == System) && p.src < 3
         case Give(t, d) =>
           Ready(l) && |d.ln| == 3 && d.queue == []
           && (t == M || (t == System && Accepts(l.sys) && Silent(l.sys, l.m, d)))
  }

  /** M has not been declared here. */
  predicate Fresh3(l: Local)
    requires l.Running?
  {
    (l.m == NONE && l.h == 2 && l.sys.priv.Some? && M !in l.mons) || (l.m.priv.Some? && l.m.pub.None?)
  }

  predicate Begun(l: Local) {
    l.Running? && Small3(l.sys) && Small3(l.m)
  }

  predicate Ready(l: Local) {
    Begun(l) && l.h == 2
  }

  function Play(id: NodeId, l: Local, a: Act): (Local, set<Out>)
    requires Plays(id, l, a)
  {
    var c := CtxOf(id, if l.Running? then l.h else 0);
    match a
    case Connected(_, j) =>
      if |l.peers + {j}| >= 2 then (Running(0, {}, Sys([0, 0, 0], [0, 0, 0], id == 0, false), NONE), Broadcast(l.peers + {j}, Handshake))
      else (Joining(l.peers + {j}), {})
    case NewMonitor(_, _, _) =>
      if l.m.priv.Some? then (l.(m := l.m.(pub := Some(map[]))), {})
      else if l.sys.priv.value.owned then (l.(mons := l.mons + {M}, m := Mon([0, 0, 0], [0, 0, 0], true, true, false, false, false)), {})
      else (l.(sys := AskFor(c, System, l.sys).0, m := Mon([0, 0, 0], [0, 0, 0], false, false, false, false, false)), AskFor(c, System, l.sys).1)
    case LockAt(_, _) => (l.(m := RequestLock(c, M, l.m).0), RequestLock(c, M, l.m).1)
    case UnlockAt(_, _) => (l.(m := RequestUnlock(c, M, l.m).0), RequestUnlock(c, M, l.m).1)
    case Deliver(p) =>
      match p.msg
      case Handshake => (l.(h := l.h + 1), {})
      case Request(t, num) =>
        var (s, outs) := GetRequest(c, t, SlotFor(l, t), p.src, num, if t == System then l.mons else {});
        (Set(l, t, s), outs)
      case Give(t, d) =>
        if t == M then (l.(m := GetGive(c, l.m, d)), {})
        else
          var mons := d.monitors + if Open(l.m) then {M} else {};
          var (s, outs) := GetSystem(c, l.sys, d, mons);
          (Running(2, mons, s, Adopt(c, M, l.m, M in d.monitors).0), outs)
  }

  lemma PlayReacts(s: State, a: Act, l: Local)
    requires Shape(s) && s.n == 3 && Enabled(s, a) && Plays(Actor(a), l, a) && s.nodes[Actor(a)] == NodeOf(Actor(a), l)
    ensures React(s, a) == (NodeOf(Actor(a), Play(Actor(a), l, a).0), Play(Actor(a), l, a).1)
  {
    hide NodeOk, Put, View, PutMap, PutSet, N, HandleConnect, HandleNew, HandshakeIn, AskFor, RequestLock, RequestUnlock, GetRequest, GetGive, GetSystem, Adopt, Shape, Enabled;
    var i := Actor(a);
    match a {
      case Connected(_, j) => ConnectN(i, l.peers, j);
      case NewMonitor(_, _, _) => { if l.m == NONE { NewN(i, l.mons, l.sys); } else { NewNoted(i, l.h, l.mons, l.sys, l.m); } }
      case LockAt(_, _) => PutN(i, l.h, l.mons, l.sys, l.m, RequestLock(CtxOf(i, l.h), M, l.m).0);
      case UnlockAt(_, _) => PutN(i, l.h, l.mons, l.sys, l.m, RequestUnlock(CtxOf(i, l.h), M, l.m).0);
      case Deliver(p) =>
        match p.msg
        case Handshake => HandshakeN(i, l.h, l.sys, l.m);
        case Request(t, num) => PutN(i, l.h, l.mons, l.sys, l.m, GetRequest(CtxOf(i, l.h), t, SlotFor(l, t), p.src, num, if t == System then l.mons else {}).0);
        case Give(t, d) =>
          if t == M {
            PutN(i, l.h, l.mons, l.sys, l.m, GetGive(CtxOf(i, l.h), l.m, d));
          } else {
            SettleN(i, l.mons, l.sys, l.m, d, d.monitors + if Open(l.m) then {M} else {});
          }
    }
  }

  // ---------------------------------------------------------------- reachability

  /** Nothing sent earlier on the same channel is still under way. */
  ghost predicate KeepsOrder(s: State, a: Act) {
    a.Deliver? ==> forall p :: p in s.net && p.src == a.p.src && p.dst == a.p.dst ==> p.stamp >= a.p.stamp
  }

  ghost predicate OrderedRun(informed: bool, ss: seq<State>, acts: seq<Act>) {
    Run(informed, ss, acts) && |ss| == |acts| + 1 && forall k: nat :: k < |acts| ==> KeepsOrder(ss[k], acts[k])
  }

  ghost predicate Reached(informed: bool, s: State) {
    Shape(s) && Bounded(s) && exists ss, acts :: OrderedRun(informed, ss, acts) && ss[|acts|] == s
  }

  predicate Low(v: Node) {
    forall t :: t in v.priv ==> v.id < |v.priv[t].rn| && v.priv[t].rn[v.id] < U32_MAX
  }

  lemma LowN(id: NodeId, h: nat, mons: set<TokenId>, sys: Slot, m: Slot)
    requires id < 3 && Small3(sys) && Small3(m)
    requires forall s :: s in {sys, m} && s.priv.Some? ==> s.priv.value.rn[id] < U32_MAX
    ensures Low(Started(id, h, mons, sys, m))
  {
    var v := Started(id, h, mons, sys, m);
    forall t | t in v.priv
      ensures id < |v.priv[t].rn| && v.priv[t].rn[id] < U32_MAX
    {
      NView(id, true, h >= 2, h, OthersOf(id), mons, sys, m, t);
      assert View(v, t).priv == Some(v.priv[t]);
    }
  }

  lemma ReachedShape(informed: bool, s: State)
    requires Reached(informed, s)
    ensures Shape(s)
  {
  }

  predicate Slow(id: NodeId, l: Local)
    requires id < 3
  {
    l.Running? ==> Small3(l.sys) && Small3(l.m) && forall s :: s in {l.sys, l.m} && s.priv.Some? ==> s.priv.value.rn[id] < U32_MAX
  }

  lemma SlowIsLow(id: NodeId, l: Local)
    requires id < 3 && Slow(id, l)
    ensures Low(NodeOf(id, l)) && NodeOf(id, l).id == id
  {
    hide View, PutMap, PutSet;
    if l.Running? {
      LowN(id, l.h, l.mons, l.sys, l.m);
    } else {
      NBlank(id, l.peers);
    }
  }

  /** The event a happens in s: its handler leaves v at its node and puts the packets `sent` on the channels. */
  lemma Fires(informed: bool, s: State, a: Act, v: Node, outs: set<Out>, sent: set<Packet>, s': State)
    requires Reached(informed, s) && Shape(s) && Enabled(s, a) && KeepsOrder(s, a) && React(s, a) == (v, outs)
    requires Low(v) && (informed ==> Informed(s, a))
    requires sent == Stamped(Actor(a), s.clock, outs)
    requires s'.n == s.n && s'.bound == s.bound && s'.clock == s.clock + 1 && s'.nodes == s.nodes[Actor(a) := v]
    requires s'.net == s.net - Used(a) + sent
    ensures Reached(informed, s')
  {
    hide NodeOk, Carries, React;
    StepShape(s, a);
    assert s' == Step(s, a);
    var ss, acts :| OrderedRun(informed, ss, acts) && ss[|acts|] == s;
    var ss', acts' := ss + [s'], acts + [a];
    forall k: nat | k < |acts'|
      ensures Next(informed, ss'[k], acts'[k], ss'[k + 1]) && KeepsOrder(ss'[k], acts'[k])
    {
      if k < |acts| {
        assert Next(informed, ss[k], acts[k], ss[k + 1]);
      }
    }
    assert OrderedRun(informed, ss', acts');
  }

  /** The three nodes and the packets in flight. */
  datatype Conf = Conf(ls: seq<Local>, net: set<Packet>, clock: nat)

  function StateOf(c: Conf): State {
    State(3, UNBOUND, seq(|c.ls|, (i: int) requires 0 <= i < |c.ls| => NodeOf(i, c.ls[i])), c.net, c.clock)
  }

  predicate May(c: Conf, a: Act) {
    var i := Actor(a);
    |c.ls| == 3 && i < 3 && Plays(i, c.ls[i], a)
    && match a
       case Connected(_, j) => j < 3 && j != i && j !in c.ls[i].peers
       case Deliver(p) => p in c.net && p.src != i && p.src < 3 && c.ls[i].Running? && forall q :: q in c.net && q.src == p.src && q.dst == i ==> q.stamp >= p.stamp
       case _ => true
  }

  lemma PeersOf(id: NodeId, l: Local)
    ensures NodeOf(id, l).peers == if l.Joining? then l.peers else OthersOf(id)
  {
  }

  /** A lock is asked for only where M is known to be created. */
  predicate Known(c: Conf, a: Act)
    requires May(c, a)
  {
    a.LockAt? ==> !Open(c.ls[a.i].m)
  }

  lemma KnownInformed(c: Conf, a: Act)
    requires May(c, a) && Known(c, a) && Shape(StateOf(c)) && Enabled(StateOf(c), a)
    ensures Informed(StateOf(c), a)
  {
    hide PutMap, PutSet, View;
    if a.LockAt? {
      var l := c.ls[a.i];
      NView(a.i, true, l.h >= 2, l.h, OthersOf(a.i), l.mons, l.sys, l.m, M);
      RecordIs(StateOf(c).nodes[a.i], M);
    }
  }

  lemma RecordIs(v: Node, t: TokenId)
    ensures View(v, t).priv == if t in v.priv then Some(v.priv[t]) else None
  {
  }

  lemma MayHappen(informed: bool, c: Conf, a: Act)
    requires Reached(informed, StateOf(c)) && May(c, a)
    ensures Shape(StateOf(c)) && StateOf(c).n == 3 && Enabled(StateOf(c), a) && KeepsOrder(StateOf(c), a)
    ensures Actor(a) < 3 && StateOf(c).nodes[Actor(a)] == NodeOf(Actor(a), c.ls[Actor(a)])
  {
    hide Reached, NodeOf, Ready, Small3, Shape;
    ReachedShape(informed, StateOf(c));
    PeersOf(Actor(a), c.ls[Actor(a)]);
  }

  lemma ConfMoves(c: Conf, c': Conf, i: NodeId)
    requires |c.ls| == |c'.ls| == 3 && i < 3 && c'.ls == c.ls[i := c'.ls[i]]
    ensures StateOf(c').nodes == StateOf(c).nodes[i := NodeOf(i, c'.ls[i])]
  {
    hide NodeOf;
  }

  /** The event a happens in c, with the packets `sent` put on the channels. */
  lemma Happens(informed: bool, c: Conf, a: Act, c': Conf, sent: set<Packet>)
    requires Reached(informed, StateOf(c)) && May(c, a) && (informed ==> Known(c, a)) && |c'.ls| == 3
    requires var i := Actor(a);
      && Slow(i, c'.ls[i]) && Play(i, c.ls[i], a).0 == c'.ls[i] && c'.ls == c.ls[i := c'.ls[i]]
      && sent == Stamped(i, c.clock, Play(i, c.ls[i], a).1) && c'.net == c.net - Used(a) + sent && c'.clock == c.clock + 1
    ensures Reached(informed, StateOf(c'))
  {
    hide Reached, Play, Plays, React, NodeOf, Slow, Low, Shape, Enabled, KeepsOrder, Used, Stamped, Informed, Known;
    var i := Actor(a);
    MayHappen(informed, c, a);
    if informed {
      KnownInformed(c, a);
    }
    PlayReacts(StateOf(c), a, c.ls[i]);
    SlowIsLow(i, c'.ls[i]);
    ConfMoves(c, c', i);
    Fires(informed, StateOf(c), a, NodeOf(i, c'.ls[i]), Play(i, c.ls[i], a).1, sent, StateOf(c'));
  }
}
