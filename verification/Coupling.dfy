/** The system token's monitor set is complete wherever the token is, so a monitor is minted at most once. */
module Coupling {
  import opened Basics
  import opened Properties
  import opened Token
  import opened Slot
  import opened Node
  import opened World
  import opened Cluster
  import opened Startup
  import opened Monitors
  import opened Tokens

  lemma CompleteSame(s: State, s': State, mons: set<TokenId>)
    requires Complete(s, mons) && SameRegister(s, s')
    ensures Complete(s', mons)
  {
  }

  lemma CompleteNoSystem(s: State, mons: set<TokenId>)
    requires Complete(s, mons)
    ensures System !in mons
  {
  }

  ghost predicate MintsNothing(s: State, a: Act)
    requires Shape(s) && Enabled(s, a)
  {
    forall t :: !Mints(s, a, t)
  }

  ghost predicate SameRegister(s: State, s': State) {
    forall t :: t != System ==> (Registered(s', t) <==> Registered(s, t))
  }

  /** The handler leaves the node's monitor list alone and at most sends the system token with that list. */
  predicate Modest(v: Node, r: (Node, set<Out>)) {
    && NodeCoupled(r.0) && r.0.monitors == v.monitors
    && (OwnsSystem(r.0) ==> OwnsSystem(v))
    && (!v.started && v.id == 0 && System !in v.pendingRequests ==> System !in r.0.pendingRequests)
    && (forall o :: o in r.1 && o.msg.Give? && o.msg.t == System ==> OwnsSystem(v) && o.msg.data.monitors == v.monitors)
  }

  /** A step that mints nothing and at most passes the system token on. */
  lemma CoupledPlain(s: State, i: NodeId, v: Node, used: set<Packet>, outs: set<Out>)
    requires Shape(s) && Coupled(s) && i < s.n && Shape(Moved(s, i, v, used, outs)) && SameRegister(s, Moved(s, i, v, used, outs))
    requires Modest(s.nodes[i], (v, outs)) && (i == 0 ==> v.started == s.nodes[i].started)
    ensures Coupled(Moved(s, i, v, used, outs))
  {
    hide Complete, Registered, NodeOk, Carries, SameRegister;
    var s' := Moved(s, i, v, used, outs);
    forall x: nat | x < s.n && OwnsSystem(s'.nodes[x])
      ensures Complete(s', s'.nodes[x].monitors)
    {
      CompleteSame(s, s', s.nodes[x].monitors);
    }
    forall p | p in s'.net && p.msg.Give? && p.msg.t == System
      ensures Complete(s', p.msg.data.monitors)
    {
      if p in s.net {
        CompleteSame(s, s', p.msg.data.monitors);
      } else {
        SentIsOut(i, s.clock, outs, p);
        CompleteSame(s, s', s.nodes[i].monitors);
      }
    }
  }

  lemma ActorInRange(s: State, a: Act)
    requires Shape(s) && Enabled(s, a)
    ensures Actor(a) < s.n
  {
  }

  lemma RegisteredSame(s: State, a: Act)
    requires Shape(s) && Coupled(s) && Enabled(s, a) && MintsNothing(s, a)
    ensures SameRegister(s, Step(s, a))
  {
    hide Registered, Coupled, React, Complete;
    forall t | t != System
      ensures Registered(Step(s, a), t) <==> Registered(s, t)
    {
      RegisteredAfter(s, a, t);
    }
  }

  // ---------------------------------------------------------------- what the handlers do to the node's own part

  lemma SlotModest(v: Node, r: (Node, set<Out>), t: TokenId, u: Slot, outs: set<Out>)
    requires NodeCoupled(v) && SlotReaction(v, r, t, u, outs) && t.Monitor? && r.0.monitors == v.monitors
    ensures Modest(v, r)
  {
    assert View(r.0, System) == View(v, System);
    assert System in r.0.priv <==> View(r.0, System).priv.Some?;
    assert System in v.priv <==> View(v, System).priv.Some?;
    assert System in r.0.pendingRequests <==> View(r.0, System).pendReq;
  }

  lemma SystemRequestModest(v: Node, from: NodeId, num: U32)
    requires NodeOk(v) && NodeCoupled(v) && from < v.n && v.started
    ensures Modest(v, RequestTokenIn(v, System, from, num)) && RequestTokenIn(v, System, from, num).0.started == v.started
  {
  }

  lemma HandshakeModest(v: Node)
    requires NodeOk(v) && NodeCoupled(v)
    ensures Modest(v, HandshakeIn(v)) && HandshakeIn(v).0.started == v.started
  {
  }

  lemma ConnectModest(v: Node, j: NodeId)
    requires NodeOk(v) && NodeCoupled(v) && !(HandleConnect(v, j).0.started && !v.started && v.id == 0)
    ensures var r := HandleConnect(v, j);
      Modest(v, r) && (r.0.started == v.started || v.id != 0)
  {
  }

  lemma NewModest(v: Node, t: TokenId, props: Props)
    requires NodeOk(v) && NodeCoupled(v) && t.Monitor?
    requires View(v, t).pub.Some? || View(v, t).priv.Some? || !EntryFlags(v, t).1
    ensures Modest(v, HandleNew(v, t, props)) && HandleNew(v, t, props).0.started == v.started
  {
    hide AskFor, NodeOk, SlotOk, Declare;
    AskOk(v);
    AskAbout(C(v), System, View(v, System));
    AskGentle(C(v), System, View(v, System));
  }

  lemma AskGentle(c: Ctx, t: TokenId, s: Slot)
    requires SlotOk(c, s)
    ensures var (s', outs) := AskFor(c, t, s);
      && s'.priv.Some? == s.priv.Some? && (s.priv.Some? ==> s'.priv.value.owned == s.priv.value.owned)
      && s'.pub == s.pub && s'.pendGrant == s.pendGrant && forall o :: o in outs ==> !o.msg.Give?
  {
  }

  // ---------------------------------------------------------------- where the system token is

  lemma OwnerAlone(s: State, i: NodeId)
    requires Shape(s) && SystemInv(Proj(s, System)) && i < s.n && OwnsSystem(s.nodes[i])
    ensures forall x: nat :: x < s.n && OwnsSystem(s.nodes[x]) ==> x == i
    ensures forall p :: p in s.net ==> !About(p.msg, System) || !p.msg.Give?
  {
    var k := Proj(s, System);
    assert Holds(k.slots[i]);
    forall x: nat | x < s.n && OwnsSystem(s.nodes[x])
      ensures x == i
    {
      assert Holds(k.slots[x]);
    }
    forall p | p in s.net
      ensures !About(p.msg, System) || !p.msg.Give?
    {
      assert About(p.msg, System) ==> p in k.net;
    }
  }

  lemma FlightAlone(s: State, p: Packet)
    requires Shape(s) && SystemInv(Proj(s, System)) && p in s.net && p.msg.Give? && p.msg.t == System
    ensures forall x: nat :: x < s.n ==> !OwnsSystem(s.nodes[x])
    ensures forall q :: q in s.net && q.msg.Give? && q.msg.t == System ==> q == p
  {
    var k := Proj(s, System);
    assert p in k.net;
    forall x: nat | x < s.n
      ensures !OwnsSystem(s.nodes[x])
    {
      assert OwnsSystem(s.nodes[x]) ==> Holds(k.slots[x]);
    }
    forall q | q in s.net && q.msg.Give? && q.msg.t == System
      ensures q == p
    {
      assert q in k.net;
    }
  }

  lemma NoSystemYet(s: State)
    requires Shape(s) && SystemInv(Proj(s, System)) && !s.nodes[0].started
    ensures forall x: nat :: x < s.n ==> !OwnsSystem(s.nodes[x])
    ensures forall p :: p in s.net && p.msg.Give? ==> p.msg.t != System
  {
    var k := Proj(s, System);
    forall x: nat | x < s.n
      ensures !OwnsSystem(s.nodes[x])
    {
      assert OwnsSystem(s.nodes[x]) ==> Holds(k.slots[x]);
    }
    forall p | p in s.net && p.msg.Give?
      ensures p.msg.t != System
    {
      assert p.msg.t == System ==> p in k.net;
    }
  }

  /** The only place of the system token after the step is node i or a packet that i has just sent, with a complete list. */
  lemma CoupledMoved(s: State, i: NodeId, v: Node, used: set<Packet>, outs: set<Out>, mons: set<TokenId>)
    requires Shape(s) && Coupled(s) && i < s.n && Shape(Moved(s, i, v, used, outs))
    requires forall x: nat :: x < s.n && x != i ==> !OwnsSystem(s.nodes[x])
    requires forall p :: p in s.net && p.msg.Give? && p.msg.t == System ==> p in used
    requires NodeCoupled(v) && v.monitors == mons && Complete(Moved(s, i, v, used, outs), mons)
    requires (forall o :: o in outs && o.msg.Give? && o.msg.t == System ==> o.msg.data.monitors == mons)
    requires if i == 0 then v.started else s.nodes[0].started
    ensures Coupled(Moved(s, i, v, used, outs))
  {
    hide Complete, Registered, NodeOk, Carries;
    var s' := Moved(s, i, v, used, outs);
    forall p | p in s'.net && p.msg.Give? && p.msg.t == System
      ensures Complete(s', p.msg.data.monitors)
    {
      if p !in s.net || p in used {
        SentIsOut(i, s.clock, outs, p);
      }
    }
  }

  /** Before node 0 starts it registers what it creates, and nobody has the system token. */
  lemma CoupledEarly(s: State, v: Node)
    requires Shape(s) && Coupled(s) && SystemInv(Proj(s, System)) && Shape(Moved(s, 0, v, {}, {}))
    requires !s.nodes[0].started && !v.started && NodeCoupled(v) && System !in v.pendingRequests
    ensures Coupled(Moved(s, 0, v, {}, {}))
  {
    hide Complete, Registered, NodeOk, Carries, SystemInv;
    NoSystemYet(s);
    var s' := Moved(s, 0, v, {}, {});
    assert s'.net == s.net;
  }

  // ---------------------------------------------------------------- every step

  lemma PlainStep(s: State, a: Act)
    requires SystemReady(s) && Enabled(s, a) && MintsNothing(s, a) && Modest(s.nodes[Actor(a)], React(s, a))
    requires React(s, a).0.started == s.nodes[Actor(a)].started
    ensures Coupled(Step(s, a))
  {
    hide SystemReady, Bounded, SystemInv, Barrier, Coupled, MintsNothing, Modest, SameRegister, Enabled, React;
    ReadyFacts(s);
    RegisteredSame(s, a);
    StepShape(s, a);
    ActorInRange(s, a);
    var r := React(s, a);
    CoupledPlain(s, Actor(a), r.0, Used(a), r.1);
  }

  lemma ReadyFacts(s: State)
    requires SystemReady(s)
    ensures Barrier(s) && Shape(s) && Coupled(s) && SystemInv(Proj(s, System))
  {
  }

  lemma ConnectCoupled(s: State, i: NodeId, j: NodeId)
    requires SystemReady(s) && Enabled(s, Connected(i, j)) && i < s.n
    ensures Coupled(Step(s, Connected(i, j)))
  {
    hide SystemInv, Complete, Registered, Mints, Gate, Greetings, Carries, NodeOk, HandleConnect;
    var a := Connected(i, j);
    var (v, outs) := HandleConnect(s.nodes[i], j);
    assert MintsNothing(s, a) by { ConnectMints(s, i, j); }
    RegisteredSame(s, a);
    StepShape(s, a);
    if i == 0 && v.started && !s.nodes[0].started {
      ConnectZero(s, j);
    } else {
      ConnectModest(s.nodes[i], j);
      CoupledPlain(s, i, v, {}, outs);
    }
  }

  lemma ConnectMints(s: State, i: NodeId, j: NodeId)
    requires Shape(s) && Enabled(s, Connected(i, j))
    ensures MintsNothing(s, Connected(i, j))
  {
  }

  lemma ConnectZero(s: State, j: NodeId)
    requires SystemReady(s) && Enabled(s, Connected(0, j)) && SameRegister(s, Step(s, Connected(0, j)))
    requires HandleConnect(s.nodes[0], j).0.started && !s.nodes[0].started
    ensures Coupled(Step(s, Connected(0, j)))
  {
    hide SystemInv, Complete, Registered, Gate, Greetings, Carries, SameRegister;
    var (v, outs) := HandleConnect(s.nodes[0], j);
    StepShape(s, Connected(0, j));
    NoSystemYet(s);
    ZeroComplete(s, v.monitors);
    CompleteSame(s, Step(s, Connected(0, j)), v.monitors);
    CoupledMoved(s, 0, v, {}, outs, v.monitors);
  }

  lemma ZeroComplete(s: State, mons: set<TokenId>)
    requires Shape(s) && Coupled(s) && !s.nodes[0].started
    requires forall t :: t in mons <==> t != System && t in s.nodes[0].priv
    ensures Complete(s, mons)
  {
    forall t | t != System
      ensures Registered(s, t) <==> t in mons
    {
      assert ListedAt(s, 0, t) <==> Lists(s.nodes[0], t);
      assert forall i: nat :: ListedAt(s, i, t) ==> i == 0;
    }
  }

  lemma NewCoupled(s: State, i: NodeId, t: TokenId, props: Props)
    requires SystemReady(s) && Enabled(s, NewMonitor(i, t, props)) && i < s.n
    ensures Coupled(Step(s, NewMonitor(i, t, props)))
  {
    hide SystemInv, Complete, Registered, Gate, Greetings, Carries, NodeOk, HandleNew, EntryFlags;
    var a := NewMonitor(i, t, props);
    var v := s.nodes[i];
    if View(v, t).pub.Some? || View(v, t).priv.Some? || !EntryFlags(v, t).1 {
      NewModest(v, t, props);
      PlainStep(s, a);
    } else {
      NewMints(s, i, t, props);
    }
  }

  lemma NewMints(s: State, i: NodeId, t: TokenId, props: Props)
    requires SystemReady(s) && Enabled(s, NewMonitor(i, t, props)) && i < s.n
    requires var v := s.nodes[i]; View(v, t).pub.None? && View(v, t).priv.None? && EntryFlags(v, t).1
    ensures Coupled(Step(s, NewMonitor(i, t, props)))
  {
    hide SystemInv, Complete, Registered, Gate, Greetings, Carries, Step, HandleNew, NodeOk, Mints, Coupled;
    var a := NewMonitor(i, t, props);
    var (v, outs) := HandleNew(s.nodes[i], t, props);
    CoupledParts(s);
    StepShape(s, a);
    StepMoved(s, a);
    NewMinted(s.nodes[i], t, props);
    if s.nodes[i].started {
      OwnerAlone(s, i);
      OnlyMint(s, a);
      MintComplete(s, a, s.nodes[i].monitors, v.monitors, t);
      OwnerLate(s, i);
      CoupledMoved(s, i, v, {}, outs, v.monitors);
    } else {
      CoupledEarly(s, v);
    }
  }

  lemma CoupledParts(s: State)
    requires Coupled(s)
    ensures Shape(s) && forall i: nat :: i < s.n ==> NodeCoupled(s.nodes[i]) && (OwnsSystem(s.nodes[i]) ==> Complete(s, s.nodes[i].monitors))
    ensures !s.nodes[0].started ==> System !in s.nodes[0].pendingRequests
  {
    hide Complete, NodeOk, Carries;
  }

  lemma StepMoved(s: State, a: Act)
    requires Shape(s) && Enabled(s, a)
    ensures Step(s, a) == Moved(s, Actor(a), React(s, a).0, Used(a), React(s, a).1)
  {
    hide NodeOk, Carries, React;
  }

  /** handleNew where the node creates the monitor. */
  lemma NewMinted(v: Node, t: TokenId, props: Props)
    requires NodeOk(v) && NodeCoupled(v) && t.Monitor? && View(v, t).pub.None? && View(v, t).priv.None? && EntryFlags(v, t).1
    ensures var (v', outs) := HandleNew(v, t, props);
      && outs == {} && NodeCoupled(v') && v'.started == v.started && v'.pendingRequests == v.pendingRequests
      && (if v.started then OwnsSystem(v) && v'.monitors == v.monitors + {t} else v.id == 0)
  {
    hide NodeOk;
  }

  lemma OnlyMint(s: State, a: Act)
    requires Shape(s) && Enabled(s, a) && a.NewMonitor?
    requires var v := s.nodes[a.i]; View(v, a.t).pub.None? && View(v, a.t).priv.None? && EntryFlags(v, a.t).1
    ensures forall t :: t != System ==> (Mints(s, a, t) <==> t == a.t)
  {
    hide EntryFlags, NodeOk, Carries;
  }

  lemma OwnerLate(s: State, i: NodeId)
    requires Shape(s) && SystemInv(Proj(s, System)) && i < s.n && OwnsSystem(s.nodes[i])
    ensures s.nodes[0].started
  {
    if !s.nodes[0].started {
      NoSystemYet(s);
    }
  }

  lemma MintComplete(s: State, a: Act, mons: set<TokenId>, mons': set<TokenId>, t0: TokenId)
    requires Shape(s) && Coupled(s) && Enabled(s, a) && Complete(s, mons) && t0 != System
    requires mons' == mons + {t0} && forall t :: t != System ==> (Mints(s, a, t) <==> t == t0)
    ensures Complete(Step(s, a), mons')
  {
    hide Registered, Mints, React, Carries, NodeOk, Coupled;
    forall t | t != System
      ensures Registered(Step(s, a), t) <==> t in mons'
    {
      RegisteredAfter(s, a, t);
    }
  }

  lemma GiveCoupled(s: State, p: Packet)
    requires SystemReady(s) && Enabled(s, Deliver(p)) && p.msg.Give? && p.msg.t == System && Accepts(View(s.nodes[p.dst], System))
    ensures Coupled(Step(s, Deliver(p)))
  {
    hide SystemInv, Complete, Registered, Gate, Greetings, GiveTokenIn, Accepts, View, Mints;
    var v := s.nodes[p.dst];
    var d := p.msg.data;
    var (v', outs) := GiveTokenIn(v, System, d);
    Receiving(s, p);
    StepShape(s, Deliver(p));
    FlightAlone(s, p);
    SystemGiveViews(v, d, System);
    CompleteNoSystem(s, d.monitors);
    GiveSends(v, d);
    GiveComplete(s, p);
    CoupledMoved(s, p.dst, v', {p}, outs, Settled(v, d));
  }

  lemma GiveSends(v: Node, d: TokenData)
    requires NodeOk(v) && NodeCoupled(v) && Carries(v.n, Give(System, d)) && v.started && Accepts(View(v, System)) && System !in d.monitors
    ensures var (v', outs) := GiveTokenIn(v, System, d);
      NodeCoupled(v') && forall o :: o in outs && o.msg.Give? && o.msg.t == System ==> o.msg.data.monitors == Settled(v, d)
  {
    hide Adopt, AdoptAll, Release;
    SystemGiveViews(v, d, System);
    var (s, outs2) := GetSystem(C(v), View(v, System), d, Settled(v, d));
    AdoptAllOuts(v, d.monitors, System);
    var outs1 := AdoptAll(v, d.monitors).1;
    forall o | o in outs1 + outs2 && o.msg.Give? && o.msg.t == System
      ensures o.msg.data.monitors == Settled(v, d)
    {
      assert o in outs1 ==> o in OutsAbout(outs1, System);
    }
    var v' := GiveTokenIn(v, System, d).0;
    assert System in v'.priv <==> View(v', System).priv.Some?;
  }

  lemma GiveComplete(s: State, p: Packet)
    requires SystemReady(s) && Enabled(s, Deliver(p)) && p.msg.Give? && p.msg.t == System && Accepts(View(s.nodes[p.dst], System))
    requires s.nodes[p.dst].started
    ensures Complete(Step(s, Deliver(p)), Settled(s.nodes[p.dst], p.msg.data))
  {
    hide Registered, Gate, Greetings, React, SystemInv, Carries, NodeOk, Accepts, View;
    forall t | t != System
      ensures Registered(Step(s, Deliver(p)), t) <==> t in Settled(s.nodes[p.dst], p.msg.data)
    {
      RegisteredAfter(s, Deliver(p), t);
      assert Complete(s, p.msg.data.monitors);
    }
  }

  lemma CoupledKept(s: State, a: Act)
    requires SystemReady(s) && Enabled(s, a)
    ensures Coupled(Step(s, a))
  {
    hide SystemInv, Complete, Registered, Gate, Greetings, Moves, Step, RequestLock, RequestUnlock, GetRequest, GetGive, Modest, Lists, NodeCoupled, Carries, Mints;
    var i := Actor(a);
    var v := s.nodes[i];
    match a
    case Connected(_, j) => ConnectCoupled(s, i, j);
    case NewMonitor(_, t, props) => NewCoupled(s, i, t, props);
    case Deliver(p) => {
      if p.msg.Give? && p.msg.t == System {
        SystemGive(s, p);
        GiveCoupled(s, p);
      } else {
        RestModest(s, a);
        PlainStep(s, a);
      }
    }
    case LockAt(_, _) => { RestModest(s, a); PlainStep(s, a); }
    case UnlockAt(_, _) => { RestModest(s, a); PlainStep(s, a); }
    case WriteAt(_, _, _) => { RestModest(s, a); PlainStep(s, a); }
  }

  lemma RestModest(s: State, a: Act)
    requires Barrier(s) && Coupled(s) && Enabled(s, a) && !a.Connected? && !a.NewMonitor?
    requires !(a.Deliver? && a.p.msg.Give? && a.p.msg.t == System)
    ensures MintsNothing(s, a) && Modest(s.nodes[Actor(a)], React(s, a))
    ensures React(s, a).0.started == s.nodes[Actor(a)].started
  {
    hide Complete, Registered, Gate, Greetings, Moves, RequestLock, RequestUnlock, GetRequest, GetGive, Modest, Carries, View, HandshakeIn;
    var v := s.nodes[Actor(a)];
    match a
    case LockAt(_, t) => { UserLockMoves(s, a); SlotStepModest(s, a, t); }
    case UnlockAt(_, t) => { UserUnlockMoves(s, a); SlotStepModest(s, a, t); }
    case WriteAt(_, t, _) => { UserWriteMoves(s, a); SlotStepModest(s, a, t); }
    case Deliver(p) => {
      match p.msg
      case Handshake => HandshakeModest(v);
      case Request(t, num) => {
        if t == System {
          Receiving(s, p);
          SystemRequestModest(v, p.src, num);
        } else {
          UserRequestMoves(s, p);
          SlotStepModest(s, a, t);
        }
      }
      case Give(t, d) => { UserGiveMoves(s, p); SlotStepModest(s, a, t); }
    }
  }

  lemma SlotStepModest(s: State, a: Act, t: TokenId)
    requires Shape(s) && Coupled(s) && Enabled(s, a) && t.Monitor? && !a.Connected? && !a.NewMonitor?
    requires !(a.Deliver? && a.p.msg.Handshake?)
    requires exists u, outs :: Moves(s, a, t, u, outs)
    ensures Modest(s.nodes[Actor(a)], React(s, a))
    ensures React(s, a).0.started == s.nodes[Actor(a)].started
  {
    hide React, View, Carries, Modest, Complete, Registered;
    var u, outs :| Moves(s, a, t, u, outs);
    MonitorsKept(s, a);
    SlotModest(s.nodes[Actor(a)], React(s, a), t, u, outs);
  }

  lemma MonitorsKept(s: State, a: Act)
    requires Shape(s) && Enabled(s, a) && !a.Connected? && !a.NewMonitor?
    requires !(a.Deliver? && (a.p.msg.Handshake? || (a.p.msg.Give? && a.p.msg.t == System)))
    ensures React(s, a).0.monitors == s.nodes[Actor(a)].monitors
  {
  }
}
