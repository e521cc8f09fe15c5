/** The cluster seen one token at a time, and the set of monitors that exist. */
module Tokens {
  import opened Basics
  import opened Properties
  import opened Token
  import opened Slot
  import opened Node
  import opened World
  import opened Cluster
  import opened Startup
  import opened Refinement
  import opened Events
  import opened Monitors

  /** Node v lists monitor t: in its copy of the system token's set or, at node 0 before it starts, as its own creation. */
  predicate Lists(v: Node, t: TokenId) {
    t in v.monitors || (v.id == 0 && !v.started && t != System && t in v.priv)
  }

  ghost predicate ListedAt(s: State, i: nat, t: TokenId) {
    i < |s.nodes| && Lists(s.nodes[i], t)
  }

  ghost predicate Registered(s: State, t: TokenId) {
    exists i: nat :: ListedAt(s, i, t)
  }

  ghost predicate Minted(s: State, t: TokenId) {
    if t == System then 0 < |s.nodes| && s.nodes[0].started else Registered(s, t)
  }

  predicate About(m: Msg, t: TokenId) {
    !m.Handshake? && m.t == t
  }

  function PacketsAbout(ps: set<Packet>, t: TokenId): set<Packet> {
    set p | p in ps && About(p.msg, t)
  }

  function OutsAbout(os: set<Out>, t: TokenId): set<Out> {
    set o | o in os && About(o.msg, t)
  }

  /** What the cluster looks like to token t. */
  ghost function Proj(s: State, t: TokenId): World {
    World(t, s.n,
          seq(|s.nodes|, i requires 0 <= i < |s.nodes| => s.nodes[i].startedCluster),
          seq(|s.nodes|, i requires 0 <= i < |s.nodes| => View(s.nodes[i], t)),
          PacketsAbout(s.net, t), Minted(s, t))
  }

  lemma ProjShape(s: State, t: TokenId)
    requires Shape(s)
    ensures WellFormed(Proj(s, t))
  {
  }

  lemma ProjSmall(s: State, t: TokenId)
    requires Shape(s) && Bounded(s)
    ensures Small(Proj(s, t))
  {
    ProjShape(s, t);
  }

  /** One step of node i is one step of its slot for t. */
  lemma ProjMoved(s: State, i: NodeId, v: Node, used: set<Packet>, outs: set<Out>, t: TokenId)
    requires Shape(s) && i < s.n
    ensures var s' := Moved(s, i, v, used, outs);
      var k := Proj(s, t);
      Proj(s', t) == Apply(k.(up := k.up[i := v.startedCluster]), i, View(v, t), PacketsAbout(used, t), s.clock, OutsAbout(outs, t)).(minted := Minted(s', t))
  {
    var s' := Moved(s, i, v, used, outs);
    var k := Proj(s, t);
    forall p
      ensures p in PacketsAbout(Stamped(i, s.clock, outs), t) <==> p in Stamped(i, s.clock, OutsAbout(outs, t))
    {
      if p in Stamped(i, s.clock, outs) {
        SentIsOut(i, s.clock, outs, p);
      }
      if p in Stamped(i, s.clock, OutsAbout(outs, t)) {
        SentIsOut(i, s.clock, OutsAbout(outs, t), p);
      }
      if p in PacketsAbout(Stamped(i, s.clock, outs), t) {
        assert Out(p.dst, p.msg) in OutsAbout(outs, t);
      }
    }
    assert Proj(s', t).net == k.net - PacketsAbout(used, t) + Stamped(i, s.clock, OutsAbout(outs, t));
    assert Proj(s', t).up == k.up[i := v.startedCluster];
    assert Proj(s', t).slots == k.slots[i := View(v, t)];
  }

  // ---------------------------------------------------------------- the coupling of the system token and the monitors

  /** A copy of the monitor set is complete. */
  ghost predicate Complete(s: State, mons: set<TokenId>) {
    System !in mons && forall t :: t != System ==> (Registered(s, t) <==> t in mons)
  }

  predicate NodeCoupled(v: Node) {
    (v.started <==> System in v.priv) && (!v.started ==> v.monitors == {}) && System !in v.monitors
  }

  predicate OwnsSystem(v: Node) {
    System in v.priv && v.priv[System].owned
  }

  /** The system token knows every monitor that exists; before node 0 has started there is no system token. */
  ghost predicate Coupled(s: State) {
    && Shape(s)
    && (forall i: nat :: i < s.n ==> NodeCoupled(s.nodes[i]))
    && (!s.nodes[0].started ==> System !in s.nodes[0].pendingRequests && forall i: nat :: i < s.n ==> s.nodes[i].monitors == {})
    && (forall i: nat :: i < s.n && OwnsSystem(s.nodes[i]) ==> Complete(s, s.nodes[i].monitors))
    && (forall p :: p in s.net && p.msg.Give? && p.msg.t == System ==> Complete(s, p.msg.data.monitors))
  }

  /** The invariant that needs no assumption on who locks what. */
  ghost predicate Safe(s: State) {
    && Barrier(s) && Coupled(s)
    && SystemInv(Proj(s, System))
    && forall t: TokenId :: t.Monitor? ==> Single(Proj(s, t))
  }

  /** The invariant of runs in which only informed nodes lock. */
  ghost predicate Sound(s: State) {
    Safe(s) && forall t: TokenId :: t.Monitor? ==> UserInv(Proj(s, t), s.bound(t))
  }

  /** The monitor that a step creates, if any. */
  ghost predicate Mints(s: State, a: Act, t: TokenId)
    requires Shape(s) && Enabled(s, a)
  {
    var v := s.nodes[Actor(a)];
    match a
    case NewMonitor(_, t', _) => t == t' && View(v, t).pub.None? && View(v, t).priv.None? && EntryFlags(v, t).1
    case Deliver(p) =>
      p.msg.Give? && p.msg.t == System && v.started && Accepts(View(v, System)) && t in Unsettled(v) && t !in p.msg.data.monitors
    case _ => false
  }

  // ---------------------------------------------------------------- who registers what

  /** How a handler changes the node's list. */
  lemma ListsConnect(v: Node, j: NodeId, t: TokenId)
    requires NodeOk(v) && t != System && (!v.started ==> v.monitors == {})
    ensures Lists(HandleConnect(v, j).0, t) <==> Lists(v, t)
  {
  }

  lemma ListsNew(v: Node, t': TokenId, props: Props, t: TokenId)
    requires NodeOk(v) && t != System && t'.Monitor?
    ensures Lists(HandleNew(v, t', props).0, t) <==>
              Lists(v, t) || (t == t' && View(v, t).pub.None? && View(v, t).priv.None? && EntryFlags(v, t).1)
  {
  }

  lemma ListsGive(v: Node, t': TokenId, d: TokenData, t: TokenId)
    requires NodeOk(v) && Carries(v.n, Give(t', d)) && t != System
    ensures var v' := GiveTokenIn(v, t', d).0;
      if t' == System && v.started && Accepts(View(v, System)) then
        (Lists(v', t) <==> t in d.monitors || t in Unsettled(v))
      else (Lists(v', t) <==> Lists(v, t))
  {
    hide GetSystem, GetGive;
  }

  /** Every other handler leaves the list alone. */
  lemma ListsRest(s: State, a: Act, t: TokenId)
    requires Shape(s) && Enabled(s, a) && t != System
    requires !a.Connected? && !a.NewMonitor? && !(a.Deliver? && a.p.msg.Give?)
    ensures Lists(React(s, a).0, t) <==> Lists(s.nodes[Actor(a)], t)
  {
    hide Lists, Put, NodeOk, RequestLock, RequestUnlock, GetRequest, HandshakeIn;
    var v := s.nodes[Actor(a)];
    match a
    case LockAt(_, t') => {
      ViewInRange(v, t');
      LockKeeps(C(v), t', View(v, t'));
      ListsPut(v, t', RequestLock(C(v), t', View(v, t')).0, t);
    }
    case UnlockAt(_, t') => {
      ViewInRange(v, t');
      UnlockKeepsRecord(C(v), t', View(v, t'));
      ListsPut(v, t', RequestUnlock(C(v), t', View(v, t')).0, t);
    }
    case WriteAt(_, t', props) => ListsPub(v, t', props, t);
    case Deliver(p) => {
      match p.msg
      case Handshake => ListsUp(v, t);
      case Request(t', num) => {
        ViewInRange(v, t');
        if v.started {
          ListsPut(v, t', GetRequest(C(v), t', View(v, t'), p.src, num, Carried(v, t')).0, t);
        }
      }
    }
  }

  lemma ListsPut(v: Node, t': TokenId, s: Slot, t: TokenId)
    requires v.started || (s.priv.Some? <==> t' in v.priv)
    ensures Lists(Put(v, t', s), t) <==> Lists(v, t)
  {
  }

  lemma LockKeeps(c: Ctx, t: TokenId, s: Slot)
    requires SlotOk(c, s)
    ensures RequestLock(c, t, s).0.priv.Some? <==> s.priv.Some?
  {
  }

  lemma UnlockKeepsRecord(c: Ctx, t: TokenId, s: Slot)
    requires SlotOk(c, s)
    ensures RequestUnlock(c, t, s).0.priv.Some? <==> s.priv.Some?
  {
  }

  lemma ListsPub(v: Node, t': TokenId, props: Props, t: TokenId)
    ensures Lists(v.(pub := v.pub[t' := props]), t) <==> Lists(v, t)
  {
  }

  lemma ListsUp(v: Node, t: TokenId)
    requires NodeOk(v)
    ensures Lists(HandshakeIn(v).0, t) <==> Lists(v, t)
  {
    hide ComeUp;
  }

  /** Registering is monotone, and a step registers exactly what it mints. */
  lemma RegisteredAfter(s: State, a: Act, t: TokenId)
    requires Shape(s) && Coupled(s) && Enabled(s, a) && t != System
    ensures Registered(Step(s, a), t) <==> Registered(s, t) || Mints(s, a, t)
  {
    hide HandleConnect, HandleNew, GiveTokenIn, HandshakeIn, RequestTokenIn, LockRequested, UnlockRequested, Carries, NodeOk;
    var i := Actor(a);
    var v' := React(s, a).0;
    ListsAfter(s, a, t);
    assert forall x: nat :: x != i ==> (ListedAt(Step(s, a), x, t) <==> ListedAt(s, x, t));
    assert ListedAt(s, i, t) <==> Lists(s.nodes[i], t);
    assert ListedAt(Step(s, a), i, t) <==> Lists(v', t);
  }

  lemma ListsAfter(s: State, a: Act, t: TokenId)
    requires Shape(s) && Coupled(s) && Enabled(s, a) && t != System
    ensures Lists(React(s, a).0, t) ==> Registered(s, t) || Mints(s, a, t)
    ensures Lists(s.nodes[Actor(a)], t) || Mints(s, a, t) ==> Lists(React(s, a).0, t)
  {
    hide HandleConnect, HandleNew, GiveTokenIn, HandshakeIn, RequestTokenIn, LockRequested, UnlockRequested;
    var i := Actor(a);
    var v := s.nodes[i];
    assert ListedAt(s, i, t) <==> Lists(v, t);
    match a
    case Connected(_, j) => ListsConnect(v, j, t);
    case NewMonitor(_, t', props) => ListsNew(v, t', props, t);
    case Deliver(p) => {
      if p.msg.Give? {
        ListsGive(v, p.msg.t, p.msg.data, t);
        assert p.msg.t == System ==> Complete(s, p.msg.data.monitors);
      } else {
        ListsRest(s, a, t);
      }
    }
    case LockAt(_, _) => ListsRest(s, a, t);
    case UnlockAt(_, _) => ListsRest(s, a, t);
    case WriteAt(_, _, _) => ListsRest(s, a, t);
  }

  // ---------------------------------------------------------------- the handlers see what the projection sees

  /** Once the cluster is up a node is connected to everyone; before that its peers do not matter. */
  lemma UpIsConnected(s: State, i: NodeId)
    requires Barrier(s) && i < s.n && s.nodes[i].startedCluster
    ensures s.nodes[i].started && s.nodes[i].peers == Others(s.n, i) && AllStarted(s)
  {
    assert Greeted(s, i);
  }

  lemma PeersUnused(c: Ctx, ps: set<NodeId>, t: TokenId, s: Slot, b: bool)
    requires SlotOk(c, s) && !c.up
    ensures AskFor(c.(peers := ps), t, s) == AskFor(c, t, s)
    ensures RequestLock(c.(peers := ps), t, s) == RequestLock(c, t, s)
    ensures Adopt(c.(peers := ps), t, s, b) == Adopt(c, t, s, b)
  {
  }

  lemma SameAsk(s: State, i: NodeId, t: TokenId, b: bool)
    requires Barrier(s) && i < s.n
    ensures var v := s.nodes[i];
      var c := Ctx(i, s.n, v.startedCluster, Others(s.n, i));
      && AskFor(C(v), t, View(v, t)) == AskFor(c, t, View(v, t))
      && RequestLock(C(v), t, View(v, t)) == RequestLock(c, t, View(v, t))
      && Adopt(C(v), t, View(v, t), b) == Adopt(c, t, View(v, t), b)
  {
    var v := s.nodes[i];
    if v.startedCluster {
      UpIsConnected(s, i);
    } else {
      PeersUnused(C(v), Others(s.n, i), t, View(v, t), b);
    }
  }

  // ---------------------------------------------------------------- the system token

  /** The packets a slot function sends are about its token. */
  predicate AllAbout(outs: set<Out>, t: TokenId) {
    forall o :: o in outs ==> About(o.msg, t)
  }

  lemma FilterAll(outs: set<Out>, t: TokenId, t': TokenId)
    requires AllAbout(outs, t)
    ensures OutsAbout(outs, t') == if t == t' then outs else {}
  {
  }

  /** A step in which only the node's slot for t0 moves, with packets about t0 or about no token. */
  ghost predicate OneSlot(s: State, i: NodeId, v: Node, used: set<Packet>, outs: set<Out>, t0: TokenId)
    requires Shape(s) && i < s.n
  {
    && v.startedCluster == s.nodes[i].startedCluster
    && (forall t :: t != t0 ==> View(v, t) == View(s.nodes[i], t))
    && (forall o :: o in outs ==> o.msg.Handshake? || About(o.msg, t0))
    && (forall p :: p in used ==> p.msg.Handshake? || About(p.msg, t0))
  }

  lemma OneSlotProj(s: State, i: NodeId, v: Node, used: set<Packet>, outs: set<Out>, t0: TokenId, t: TokenId)
    requires Shape(s) && i < s.n && OneSlot(s, i, v, used, outs, t0)
    ensures var s' := Moved(s, i, v, used, outs);
      Proj(s', t) == (if t == t0 then Apply(Proj(s, t), i, View(v, t), PacketsAbout(used, t), s.clock, OutsAbout(outs, t)) else Proj(s, t)).(minted := Minted(s', t))
  {
    ProjMoved(s, i, v, used, outs, t);
    var k := Proj(s, t);
    assert k.up[i := v.startedCluster] == k.up;
    if t != t0 {
      assert OutsAbout(outs, t) == {};
      assert PacketsAbout(used, t) == {};
      assert k.slots[i := View(v, t)] == k.slots;
      assert k.net - {} + Stamped(i, s.clock, {}) == k.net;
    }
  }

  lemma Idle(k: World, i: NodeId, stamp: nat)
    requires i < |k.slots|
    ensures Apply(k, i, k.slots[i], {}, stamp, {}) == k
  {
    assert k.slots[i := k.slots[i]] == k.slots;
    assert k.net - {} + Stamped(i, stamp, {}) == k.net;
  }

  /** What holds of the system token before every step. */
  ghost predicate SystemReady(s: State) {
    Barrier(s) && Coupled(s) && Bounded(s) && SystemInv(Proj(s, System))
  }

  ghost predicate SystemMoves(s: State, s': State) {
    SystemInv(Proj(s', System)) && Onward(Place(Proj(s, System)), Place(Proj(s', System)))
  }

  lemma SystemStays(s: State, s': State)
    requires SystemInv(Proj(s, System)) && Proj(s', System) == Proj(s, System)
    ensures SystemMoves(s, s')
  {
    OnwardSame(Proj(s, System));
  }

  lemma ConnectOneSlot(s: State, i: NodeId, j: NodeId)
    requires Barrier(s) && Coupled(s) && Enabled(s, Connected(i, j)) && i < s.n
    ensures var v := s.nodes[i];
      var (v', outs) := HandleConnect(v, j);
      && OneSlot(s, i, v', {}, outs, System) && OutsAbout(outs, System) == {}
      && !v.started && !v.startedCluster
      && View(v', System) == if v'.started then View(v, System).(priv := Some(NewPriv(s.n, true, i == 0))) else View(v, System)
  {
    hide Gate, HandleConnect, OneSlot, OutsAbout;
    NotUpYet(s, i, j);
    ConnectSystemOnly(s.nodes[i], j);
    assert NodeCoupled(s.nodes[i]);
    OneSlotIs(s, i, j);
  }

  lemma NotUpYet(s: State, i: NodeId, j: NodeId)
    requires Barrier(s) && Enabled(s, Connected(i, j)) && i < s.n
    ensures !s.nodes[i].started && !s.nodes[i].startedCluster
  {
    hide NodeOk, Carries;
    assert j in Others(s.n, i) && Greeted(s, i);
    assert s.nodes[i].startedCluster ==> AllStarted(s);
  }

  lemma ConnectSystemOnly(v: Node, j: NodeId)
    requires !v.started && System !in v.priv
    ensures var (v', outs) := HandleConnect(v, j);
      && v'.startedCluster == v.startedCluster && (forall t :: t != System ==> View(v', t) == View(v, t))
      && (forall o :: o in outs ==> o.msg.Handshake?) && OutsAbout(outs, System) == {}
      && View(v', System) == if v'.started then View(v, System).(priv := Some(NewPriv(v.n, true, v.id == 0))) else View(v, System)
  {
  }

  lemma OneSlotIs(s: State, i: NodeId, j: NodeId)
    requires Shape(s) && i < s.n
    requires var (v', outs) := HandleConnect(s.nodes[i], j);
      && v'.startedCluster == s.nodes[i].startedCluster && (forall t :: t != System ==> View(v', t) == View(s.nodes[i], t))
      && forall o :: o in outs ==> o.msg.Handshake?
    ensures OneSlot(s, i, HandleConnect(s.nodes[i], j).0, {}, HandleConnect(s.nodes[i], j).1, System)
  {
    hide HandleConnect, Shape, View;
  }

  lemma SystemConnect(s: State, i: NodeId, j: NodeId)
    requires SystemReady(s) && Enabled(s, Connected(i, j)) && i < s.n
    ensures SystemMoves(s, Step(s, Connected(i, j)))
  {
    hide SystemInv, Inv, Place, Gate, NodeOk, Carries, OneSlot, HandleConnect;
    var v := s.nodes[i];
    var (v', outs) := HandleConnect(v, j);
    var s' := Step(s, Connected(i, j));
    ConnectOneSlot(s, i, j);
    OneSlotProj(s, i, v', {}, outs, System, System);
    assert PacketsAbout({}, System) == {};
    var k := Proj(s, System);
    if v'.started {
      OnSystemStart(k, i, s.clock);
    } else {
      Idle(k, i, s.clock);
      SystemStays(s, s');
    }
  }

  /** handleNew at the level of slots: the monitor is declared and, if its creation is open, the system token is asked for. */
  lemma NewViews(v: Node, t: TokenId, props: Props)
    requires NodeOk(v) && t.Monitor?
    ensures var (v', outs) := HandleNew(v, t, props);
      var s := View(v, t);
      var (created, owned) := EntryFlags(v, t);
      var asks := s.pub.None? && s.priv.None? && !created;
      && SlotOk(C(v), View(v, System))
      && v'.startedCluster == v.startedCluster
      && View(v', t) == Declare(C(v), s, props, created, owned)
      && View(v', System) == (if asks then AskFor(C(v), System, View(v, System)).0 else View(v, System))
      && outs == (if asks then AskFor(C(v), System, View(v, System)).1 else {})
      && (forall x :: x != t && x != System ==> View(v', x) == View(v, x))
  {
    hide Declare, AskFor, EntryFlags, Put, View, SlotOk;
    AskOk(v);
    var s := View(v, t);
    var (created, owned) := EntryFlags(v, t);
    EntryFlagsMean(v, t);
    var d := Declare(C(v), s, props, created, owned);
    var v1 := Put(v, t, d);
    var a := AskFor(C(v), System, View(v, System)).0;
    forall x
      ensures View(v1, x) == if x == t then d else View(v, x)
      ensures View(Put(v1, System, a), x) == if x == System then a else View(v1, x)
      ensures View(v1.(monitors := v.monitors + {t}), x) == View(v1, x)
    {
      ViewPut(v, t, d, x);
      ViewPut(v1, System, a, x);
      ViewMonitors(v1, v.monitors + {t}, x);
    }
    PutCtx(v, t, d);
    PutCtx(v1, System, a);
  }

  lemma PutCtx(v: Node, t: TokenId, s: Slot)
    ensures Put(v, t, s).startedCluster == v.startedCluster
  {
  }

  lemma EntryFlagsMean(v: Node, t: TokenId)
    ensures var (created, owned) := EntryFlags(v, t); owned ==> created
  {
  }

  lemma ViewMonitors(v: Node, mons: set<TokenId>, t: TokenId)
    ensures View(v.(monitors := mons), t) == View(v, t)
  {
  }

  lemma AskAbout(c: Ctx, t: TokenId, s: Slot)
    requires SlotOk(c, s)
    ensures AllAbout(AskFor(c, t, s).1, t)
  {
  }

  lemma SystemNew(s: State, i: NodeId, t: TokenId, props: Props)
    requires SystemReady(s) && Enabled(s, NewMonitor(i, t, props)) && i < s.n
    ensures SystemMoves(s, Step(s, NewMonitor(i, t, props)))
  {
    hide SystemInv, Inv, Place, Gate, Greetings, NodeOk, Carries, HandleNew, AskFor, View, Declare;
    var v := s.nodes[i];
    var (v', outs) := HandleNew(v, t, props);
    var s' := Step(s, NewMonitor(i, t, props));
    NewViews(v, t, props);
    NewSystemProj(s, i, t, props);
    var k := Proj(s, System);
    if View(v, t).pub.None? && View(v, t).priv.None? && !EntryFlags(v, t).0 {
      ProjSmall(s, System);
      NotOwnedHere(s, i, t);
      SameAsk(s, i, System, false);
      SystemWellFormed(k);
      OnSystemAsk(k, i, s.clock);
    } else {
      Idle(k, i, s.clock);
      SystemStays(s, s');
    }
  }

  lemma SystemWellFormed(k: World)
    requires SystemInv(k)
    ensures WellFormed(k)
  {
  }

  /** Where a monitor's creation is left open the system token is not owned. */
  lemma NotOwnedHere(s: State, i: NodeId, t: TokenId)
    requires Shape(s) && Coupled(s) && i < s.n && !EntryFlags(s.nodes[i], t).0
    ensures !Owner(View(s.nodes[i], System))
  {
  }

  lemma NewSystemProj(s: State, i: NodeId, t: TokenId, props: Props)
    requires Shape(s) && Enabled(s, NewMonitor(i, t, props)) && i < s.n
    ensures var (v', outs) := HandleNew(s.nodes[i], t, props);
      Proj(Step(s, NewMonitor(i, t, props)), System) == Apply(Proj(s, System), i, View(v', System), {}, s.clock, outs)
  {
    hide View, HandleNew, AskFor, NodeOk, Carries;
    var v := s.nodes[i];
    var (v', outs) := HandleNew(v, t, props);
    NewViews(v, t, props);
    AskAbout(C(v), System, View(v, System));
    FilterAll(outs, System, System);
    ProjMoved(s, i, v', {}, outs, System);
    assert PacketsAbout({}, System) == {};
    var k := Proj(s, System);
    assert k.up[i := v'.startedCluster] == k.up;
    NewStarted(v, t, props);
  }

  lemma NewStarted(v: Node, t: TokenId, props: Props)
    requires NodeOk(v)
    ensures HandleNew(v, t, props).0.started == v.started
  {
  }

  /** Lock, unlock and write steps, and packets about a user monitor, move that monitor's slot only. */
  ghost predicate SlotReaction(v: Node, r: (Node, set<Out>), t: TokenId, s: Slot, outs: set<Out>) {
    && r.0.startedCluster == v.startedCluster && r.0.started == v.started
    && (forall x :: View(r.0, x) == if x == t then s else View(v, x))
    && r.1 == outs && AllAbout(outs, t)
  }

  lemma PutReaction(v: Node, t: TokenId, r: (Slot, set<Out>))
    requires AllAbout(r.1, t)
    ensures SlotReaction(v, (Put(v, t, r.0), r.1), t, r.0, r.1)
  {
    forall x
      ensures View(Put(v, t, r.0), x) == if x == t then r.0 else View(v, x)
    {
      ViewPut(v, t, r.0, x);
    }
  }

  lemma LockReaction(v: Node, t: TokenId)
    requires NodeOk(v)
    ensures var r := RequestLock(C(v), t, View(v, t)); SlotReaction(v, LockRequested(v, t), t, r.0, r.1)
  {
    PutReaction(v, t, RequestLock(C(v), t, View(v, t)));
  }

  lemma UnlockReaction(v: Node, t: TokenId)
    requires NodeOk(v)
    ensures var r := RequestUnlock(C(v), t, View(v, t)); SlotReaction(v, UnlockRequested(v, t), t, r.0, r.1)
  {
    PutReaction(v, t, RequestUnlock(C(v), t, View(v, t)));
  }

  lemma RequestReaction(v: Node, t: TokenId, from: NodeId, num: U32)
    requires NodeOk(v) && from < v.n && v.started
    ensures var r := GetRequest(C(v), t, View(v, t), from, num, Carried(v, t)); SlotReaction(v, RequestTokenIn(v, t, from, num), t, r.0, r.1)
  {
    PutReaction(v, t, GetRequest(C(v), t, View(v, t), from, num, Carried(v, t)));
  }

  lemma UserGiveReaction(v: Node, t: TokenId, d: TokenData)
    requires NodeOk(v) && v.started && t.Monitor? && Carries(v.n, Give(t, d))
    ensures SlotReaction(v, GiveTokenIn(v, t, d), t, GetGive(C(v), View(v, t), d), {})
  {
    PutReaction(v, t, (GetGive(C(v), View(v, t), d), {}));
  }

  lemma WriteReaction(v: Node, t: TokenId, props: Props)
    ensures SlotReaction(v, (v.(pub := v.pub[t := props]), {}), t, View(v, t).(pub := Some(props)), {})
  {
  }

  /** The slot that a step moves when it moves just one, and the move. */
  ghost predicate Moves(s: State, a: Act, t: TokenId, u: Slot, outs: set<Out>)
    requires Shape(s) && Enabled(s, a)
  {
    SlotReaction(s.nodes[Actor(a)], React(s, a), t, u, outs) && (a.Deliver? ==> About(a.p.msg, t))
  }

  lemma MovesProj(s: State, a: Act, t0: TokenId, u: Slot, outs: set<Out>, t: TokenId)
    requires Shape(s) && Enabled(s, a) && Moves(s, a, t0, u, outs)
    ensures var s' := Step(s, a);
      Proj(s', t) == (if t == t0 then Apply(Proj(s, t), Actor(a), u, Used(a), s.clock, outs) else Proj(s, t)).(minted := Minted(s', t))
    ensures Minted(Step(s, a), System) == Minted(s, System)
  {
    hide View, NodeOk, Carries, React;
    var i := Actor(a);
    var r := React(s, a);
    OneSlotProj(s, i, r.0, Used(a), outs, t0, t);
    FilterAll(outs, t0, t);
    if t == t0 {
      assert PacketsAbout(Used(a), t) == Used(a);
    }
  }

  /** A packet other than a handshake finds its receiver started. */
  lemma Receiving(s: State, p: Packet)
    requires Barrier(s) && p in s.net && !p.msg.Handshake?
    ensures AllStarted(s) && s.nodes[p.dst].started
  {
  }

  lemma SystemUntouched(s: State, a: Act, t: TokenId, u: Slot, outs: set<Out>)
    requires SystemReady(s) && Enabled(s, a) && t.Monitor? && Moves(s, a, t, u, outs)
    ensures SystemMoves(s, Step(s, a))
  {
    hide SystemInv, Inv, Place, Gate, Greetings, NodeOk, Carries, React, Moves;
    MovesProj(s, a, t, u, outs, System);
    assert Proj(Step(s, a), System) == Proj(s, System);
    SystemStays(s, Step(s, a));
  }

  lemma SystemRequest(s: State, p: Packet)
    requires SystemReady(s) && Enabled(s, Deliver(p)) && p.msg.Request? && p.msg.t == System
    ensures SystemMoves(s, Step(s, Deliver(p)))
  {
    hide SystemInv, Inv, Place, Gate, Greetings, Carries, Moves, GetRequest;
    var v := s.nodes[p.dst];
    var k := Proj(s, System);
    Receiving(s, p);
    RequestReaction(v, System, p.src, p.msg.num);
    var r := GetRequest(C(v), System, View(v, System), p.src, p.msg.num, v.monitors);
    assert Moves(s, Deliver(p), System, r.0, r.1) by { MovesMeans(s, Deliver(p), System, r.0, r.1); }
    MovesProj(s, Deliver(p), System, r.0, r.1, System);
    ProjSmall(s, System);
    SystemWellFormed(k);
    OnSystemRequest(k, p, v.monitors, s.clock);
    RequestPeers(C(v), Others(s.n, p.dst), System, View(v, System), p.src, p.msg.num, v.monitors);
  }

  lemma MovesMeans(s: State, a: Act, t: TokenId, u: Slot, outs: set<Out>)
    requires Shape(s) && Enabled(s, a)
    requires SlotReaction(s.nodes[Actor(a)], React(s, a), t, u, outs) && (a.Deliver? ==> About(a.p.msg, t))
    ensures Moves(s, a, t, u, outs)
  {
  }

  lemma RequestPeers(c: Ctx, ps: set<NodeId>, t: TokenId, s: Slot, from: NodeId, num: U32, mons: set<TokenId>)
    requires SlotOk(c, s) && from < c.n
    ensures GetRequest(c.(peers := ps), t, s, from, num, mons) == GetRequest(c, t, s, from, num, mons)
  {
  }

  // ---------------------------------------------------------------- the last handshake

  predicate ComesUp(s: State, p: Packet)
    requires Shape(s) && p.dst < s.n
  {
    HandshakeIn(s.nodes[p.dst]).0.startedCluster && !s.nodes[p.dst].startedCluster
  }

  lemma ComeUpAbout(c: Ctx, t: TokenId, s: Slot)
    requires SlotOk(c, s)
    ensures AllAbout(ComeUp(c, t, s).1, t)
  {
  }

  lemma ComeUpViews(v: Node, t: TokenId)
    requires NodeOk(v) && HandshakeIn(v).0.startedCluster && !v.startedCluster
    ensures var (v', outs) := HandshakeIn(v);
      var c := C(v).(up := true);
      && SlotOk(c, View(v, t))
      && View(v', t) == ComeUp(c, t, View(v, t)).0
      && OutsAbout(outs, t) == ComeUp(c, t, View(v, t)).1
      && v'.started == v.started
  {
    hide ComeUp, OutsAbout, View, ComeUpAll;
    var w := v.(handshakes := v.handshakes + 1, startedCluster := true);
    SameView(v, w, t);
    ViewComeUpAll(w, t);
    ComeUpAllOuts(w, t);
    ComeUpAllRest(w);
  }

  lemma SameView(v: Node, w: Node, t: TokenId)
    requires NodeOk(v) && w == v.(handshakes := w.handshakes, startedCluster := w.startedCluster)
    ensures NodeOk(w) && SlotOk(C(w), View(v, t)) && SlotOk(C(v), View(v, t)) && View(w, t) == View(v, t)
  {
  }

  lemma ComeUpAllRest(w: Node)
    requires NodeOk(w)
    ensures ComeUpAll(w).0.started == w.started
  {
  }

  lemma ComeUpAllOuts(w: Node, t: TokenId)
    requires NodeOk(w)
    ensures SlotOk(C(w), View(w, t)) && OutsAbout(ComeUpAll(w).1, t) == ComeUp(C(w), t, View(w, t)).1
  {
    hide ComeUp;
    forall x
      ensures SlotOk(C(w), View(w, x)) && AllAbout(ComeUp(C(w), x, View(w, x)).1, x)
    {
      ComeUpAbout(C(w), x, View(w, x));
    }
    ComeUpNone(C(w), t, View(w, t));
  }

  lemma ComeUpNone(c: Ctx, t: TokenId, s: Slot)
    requires SlotOk(c, s)
    ensures s.priv.None? ==> ComeUp(c, t, s).1 == {}
  {
  }

  lemma HandshakeProj(s: State, p: Packet, t: TokenId)
    requires Barrier(s) && Coupled(s) && Enabled(s, Deliver(p)) && p.msg.Handshake?
    ensures var k := Proj(s, t);
      var s' := Step(s, Deliver(p));
      var c := Ctx(p.dst, s.n, true, Others(s.n, p.dst));
      if ComesUp(s, p) then
        && AllStarted(s) && SlotOk(c, k.slots[p.dst]) && !k.up[p.dst]
        && Proj(s', t) == Apply(k.(up := k.up[p.dst := true]), p.dst, ComeUp(c, t, k.slots[p.dst]).0, {}, s.clock, ComeUp(c, t, k.slots[p.dst]).1)
      else Proj(s', t) == k
  {
    hide Gate, Greetings, Carries, ComeUp, Registered, HandshakeIn;
    var i := p.dst;
    var v := s.nodes[i];
    var (v', outs) := HandshakeIn(v);
    var k := Proj(s, t);
    HandshakeKeeps(s, p);
    HandshakeInStart(v);
    ProjMoved(s, i, v', {p}, outs, t);
    HandshakeMinted(s, p, t);
    assert PacketsAbout({p}, t) == {};
    if ComesUp(s, p) {
      ComeUpViews(v, t);
    } else {
      HandshakeIdle(v, t);
      assert OutsAbout(outs, t) == {};
      assert k.up[i := v'.startedCluster] == k.up;
      Idle(k, i, s.clock);
    }
  }

  lemma HandshakeIdle(v: Node, t: TokenId)
    requires NodeOk(v) && !(HandshakeIn(v).0.startedCluster && !v.startedCluster)
    ensures View(HandshakeIn(v).0, t) == View(v, t) && HandshakeIn(v).1 == {} && HandshakeIn(v).0.startedCluster == v.startedCluster
  {
  }

  lemma HandshakeMinted(s: State, p: Packet, t: TokenId)
    requires Barrier(s) && Coupled(s) && Enabled(s, Deliver(p)) && p.msg.Handshake?
    ensures Minted(Step(s, Deliver(p)), t) == Minted(s, t)
  {
    hide Gate, Greetings, Carries, HandshakeIn, Registered;
    HandshakeInStart(s.nodes[p.dst]);
    if t != System {
      RegisteredAfter(s, Deliver(p), t);
    }
  }

  lemma SystemHandshake(s: State, p: Packet)
    requires SystemReady(s) && Enabled(s, Deliver(p)) && p.msg.Handshake?
    ensures SystemMoves(s, Step(s, Deliver(p)))
  {
    hide SystemInv, Inv, Place, Gate, Greetings, NodeOk, Carries, HandshakeIn;
    var k := Proj(s, System);
    HandshakeProj(s, p, System);
    if ComesUp(s, p) {
      ProjSmall(s, System);
      SystemWellFormed(k);
      OnSystemUp(k, p.dst, s.clock);
    } else {
      SystemStays(s, Step(s, Deliver(p)));
    }
  }

  // ---------------------------------------------------------------- the system token arrives

  /** The monitor set after the loop of packetGiveToken. */
  function Settled(v: Node, d: TokenData): set<TokenId> {
    d.monitors + Unsettled(v)
  }

  lemma AdoptAbout(c: Ctx, t: TokenId, s: Slot, b: bool)
    requires SlotOk(c, s)
    ensures AllAbout(Adopt(c, t, s, b).1, t)
    ensures s.priv.None? || s.priv.value.created ==> Adopt(c, t, s, b) == (s, {})
  {
  }

  lemma PassAbout(c: Ctx, t: TokenId, s: Slot, mons: set<TokenId>)
    requires SlotOk(c, s) && s.priv.Some?
    ensures AllAbout(ReleaseAndPass(c, t, s, mons).1, t)
  {
  }

  lemma AdoptAllOuts(v: Node, mons: set<TokenId>, t: TokenId)
    requires NodeOk(v)
    ensures OutsAbout(AdoptAll(v, mons).1, t) == if t == System then {} else Adopt(C(v), t, View(v, t), t in mons).1
  {
    hide Adopt;
    forall x | x in v.priv
      ensures AllAbout(Adopt(C(v), x, View(v, x), x in mons).1, x)
    {
      AdoptAbout(C(v), x, View(v, x), x in mons);
    }
    AdoptAbout(C(v), t, View(v, t), t in mons);
  }

  lemma SystemGiveViews(v: Node, d: TokenData, t: TokenId)
    requires NodeOk(v) && Carries(v.n, Give(System, d)) && v.started && Accepts(View(v, System))
    ensures var (v', outs) := GiveTokenIn(v, System, d);
      var r := if t == System then GetSystem(C(v), View(v, System), d, Settled(v, d)) else Adopt(C(v), t, View(v, t), t in d.monitors);
      && View(v', t) == r.0 && OutsAbout(outs, t) == r.1
      && v'.startedCluster == v.startedCluster && v'.started == v.started && v'.monitors == Settled(v, d)
  {
    hide Adopt, AdoptAll, GetSystem, Put, View, Accepts, SlotOk, OutsAbout, AllAbout, NodeOk;
    ViewOk(v, t);
    ViewOk(v, System);
    AdoptAllOk(v, d.monitors);
    var (v1, outs1) := AdoptAll(v, d.monitors);
    var (s, outs2) := GetSystem(C(v), View(v, System), d, Settled(v, d));
    ViewAdoptAll(v, d.monitors, t);
    AdoptAllOuts(v, d.monitors, t);
    AdoptAllStart(v, d.monitors);
    ViewPut(v1, System, s, t);
    PutStart(v1, System, s);
    ViewMonitors(Put(v1, System, s), Settled(v, d), t);
    GetSystemAbout(C(v), View(v, System), d, Settled(v, d));
    FilterAll(outs2, System, t);
    OutsAboutBoth(outs1, outs2, t);
  }

  lemma OutsAboutBoth(a: set<Out>, b: set<Out>, t: TokenId)
    ensures OutsAbout(a + b, t) == OutsAbout(a, t) + OutsAbout(b, t)
  {
  }

  lemma ViewOk(v: Node, t: TokenId)
    requires NodeOk(v)
    ensures SlotOk(C(v), View(v, t))
  {
  }

  lemma GetSystemAbout(c: Ctx, s: Slot, d: TokenData, mons: set<TokenId>)
    requires SlotOk(c, s) && Carries(c.n, Give(System, d))
    ensures AllAbout(GetSystem(c, s, d, mons).1, System)
  {
    if Accepts(s) {
      PassAbout(c, System, Taken(c, s, d), mons);
    }
  }

  lemma AdoptAllStart(v: Node, mons: set<TokenId>)
    requires NodeOk(v)
    ensures SameStart(v, AdoptAll(v, mons).0)
  {
  }

  lemma PutStart(v: Node, t: TokenId, s: Slot)
    ensures SameStart(v, Put(v, t, s))
  {
  }

  lemma SystemGiveProj(s: State, p: Packet, t: TokenId)
    requires Barrier(s) && Enabled(s, Deliver(p)) && p.msg.Give? && p.msg.t == System && Accepts(View(s.nodes[p.dst], System))
    ensures var k := Proj(s, t);
      var s' := Step(s, Deliver(p));
      var v := s.nodes[p.dst];
      var r := if t == System then GetSystem(C(v), View(v, System), p.msg.data, Settled(v, p.msg.data))
               else Adopt(C(v), t, View(v, t), t in p.msg.data.monitors);
      Proj(s', t) == Apply(k, p.dst, r.0, if t == System then {p} else {}, s.clock, r.1).(minted := Minted(s', t))
    ensures Minted(Step(s, Deliver(p)), System) == Minted(s, System)
  {
    hide Gate, Greetings, Adopt, GetSystem, GiveTokenIn, View, Accepts, Registered;
    var i := p.dst;
    var v := s.nodes[i];
    var (v', outs) := GiveTokenIn(v, System, p.msg.data);
    Receiving(s, p);
    SystemGiveViews(v, p.msg.data, t);
    ProjMoved(s, i, v', {p}, outs, t);
    assert PacketsAbout({p}, t) == if t == System then {p} else {};
    var k := Proj(s, t);
    assert k.up[i := v'.startedCluster] == k.up;
  }

  lemma SystemGive(s: State, p: Packet)
    requires SystemReady(s) && Enabled(s, Deliver(p)) && p.msg.Give? && p.msg.t == System
    ensures Accepts(View(s.nodes[p.dst], System))
    ensures SystemMoves(s, Step(s, Deliver(p)))
  {
    hide SystemInv, Inv, Place, Gate, Greetings, GiveTokenIn, GetSystem;
    var k := Proj(s, System);
    var v := s.nodes[p.dst];
    ProjSmall(s, System);
    SystemWellFormed(k);
    assert p in k.net;
    OnSystem(k, p, Settled(v, p.msg.data), s.clock);
    SystemGiveProj(s, p, System);
    GetSystemPeers(C(v), Others(s.n, p.dst), View(v, System), p.msg.data, Settled(v, p.msg.data));
  }

  lemma GetSystemPeers(c: Ctx, ps: set<NodeId>, s: Slot, d: TokenData, mons: set<TokenId>)
    requires SlotOk(c, s) && forall x: nat :: x in d.queue ==> x < c.n
    ensures GetSystem(c.(peers := ps), s, d, mons) == GetSystem(c, s, d, mons)
  {
  }

  /** Every step keeps the system token in order and on its way. */
  lemma SystemKept(s: State, a: Act)
    requires SystemReady(s) && Enabled(s, a)
    ensures SystemMoves(s, Step(s, a))
  {
    hide SystemInv, Inv, Place, Gate, Greetings, Moves, Proj, Step, RequestLock, RequestUnlock, GetRequest, GetGive;
    var i := Actor(a);
    var v := s.nodes[i];
    match a
    case Connected(_, j) => SystemConnect(s, i, j);
    case NewMonitor(_, t, props) => SystemNew(s, i, t, props);
    case LockAt(_, t) => { UserLockMoves(s, a); SystemUntouched(s, a, t, RequestLock(C(v), t, View(v, t)).0, RequestLock(C(v), t, View(v, t)).1); }
    case UnlockAt(_, t) => { UserUnlockMoves(s, a); SystemUntouched(s, a, t, RequestUnlock(C(v), t, View(v, t)).0, RequestUnlock(C(v), t, View(v, t)).1); }
    case WriteAt(_, t, props) => { UserWriteMoves(s, a); SystemUntouched(s, a, t, View(v, t).(pub := Some(props)), {}); }
    case Deliver(p) => {
      match p.msg
      case Handshake => SystemHandshake(s, p);
      case Request(t, num) => {
        if t == System {
          SystemRequest(s, p);
        } else {
          UserRequestMoves(s, p);
          var r := GetRequest(C(v), t, View(v, t), p.src, num, {});
          SystemUntouched(s, a, t, r.0, r.1);
        }
      }
      case Give(t, d) => {
        if t == System {
          SystemGive(s, p);
        } else {
          UserGiveMoves(s, p);
          SystemUntouched(s, a, t, GetGive(C(v), View(v, t), d), {});
        }
      }
    }
  }

  lemma UserLockMoves(s: State, a: Act)
    requires Barrier(s) && Enabled(s, a) && a.LockAt?
    ensures var v := s.nodes[a.i];
      SlotOk(C(v), View(v, a.t)) && Moves(s, a, a.t, RequestLock(C(v), a.t, View(v, a.t)).0, RequestLock(C(v), a.t, View(v, a.t)).1)
  {
    LockReaction(s.nodes[a.i], a.t);
  }

  lemma UserUnlockMoves(s: State, a: Act)
    requires Barrier(s) && Enabled(s, a) && a.UnlockAt?
    ensures var v := s.nodes[a.i];
      SlotOk(C(v), View(v, a.t)) && Moves(s, a, a.t, RequestUnlock(C(v), a.t, View(v, a.t)).0, RequestUnlock(C(v), a.t, View(v, a.t)).1)
  {
    UnlockReaction(s.nodes[a.i], a.t);
  }

  lemma UserWriteMoves(s: State, a: Act)
    requires Barrier(s) && Enabled(s, a) && a.WriteAt?
    ensures Moves(s, a, a.t, View(s.nodes[a.i], a.t).(pub := Some(a.props)), {})
  {
    WriteReaction(s.nodes[a.i], a.t, a.props);
  }

  lemma UserRequestMoves(s: State, p: Packet)
    requires Barrier(s) && Enabled(s, Deliver(p)) && p.msg.Request? && p.msg.t.Monitor?
    ensures var v := s.nodes[p.dst];
      SlotOk(C(v), View(v, p.msg.t)) &&
      var r := GetRequest(C(v), p.msg.t, View(v, p.msg.t), p.src, p.msg.num, {});
      Moves(s, Deliver(p), p.msg.t, r.0, r.1)
  {
    Receiving(s, p);
    RequestReaction(s.nodes[p.dst], p.msg.t, p.src, p.msg.num);
  }

  lemma UserGiveMoves(s: State, p: Packet)
    requires Barrier(s) && Enabled(s, Deliver(p)) && p.msg.Give? && p.msg.t.Monitor?
    ensures Moves(s, Deliver(p), p.msg.t, GetGive(C(s.nodes[p.dst]), View(s.nodes[p.dst], p.msg.t), p.msg.data), {})
  {
    Receiving(s, p);
    UserGiveReaction(s.nodes[p.dst], p.msg.t, p.msg.data);
  }
}
