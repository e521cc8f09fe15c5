/** Every step of the cluster is, for each user monitor, one event of that monitor. */
module Users {
  import opened Basics
  import opened Properties
  import opened Slot
  import opened Node
  import opened World
  import opened UserEvents
  import opened Cluster
  import opened Startup
  import opened Refinement
  import opened Events
  import opened Monitors
  import opened Tokens
  import opened Coupling

  /** The event that step a is for monitor t. */
  function EventOf(s: State, a: Act, t: TokenId): Ev
    requires Shape(s) && Enabled(s, a)
  {
    match a
    case Connected(_, _) => Nothing
    case NewMonitor(i, t0, props) => if t0 == t then Declares(i, props, EntryFlags(s.nodes[i], t).0, EntryFlags(s.nodes[i], t).1) else Nothing
    case LockAt(i, t0) => if t0 == t then Locks(i) else Nothing
    case UnlockAt(i, t0) => if t0 == t then Unlocks(i) else Nothing
    case WriteAt(i, t0, props) => if t0 == t then Writes(i, props) else Nothing
    case Deliver(p) =>
      match p.msg
      case Handshake => if ComesUp(s, p) then Rises(p.dst) else Nothing
      case Request(t0, _) => if t0 == t then Hears(p) else Nothing
      case Give(t0, _) => if t0 == t then Receives(p) else if t0 == System then Settles(p.dst) else Nothing
  }

  /** Step a is event e for monitor t. */
  ghost predicate Is(s: State, a: Act, t: TokenId, e: Ev)
    requires Shape(s) && Enabled(s, a)
  {
    Possible(Proj(s, t), e) && Proj(Step(s, a), t) == After(Proj(s, t), e, s.clock)
  }

  lemma IsNothing(s: State, a: Act, t: TokenId)
    requires Shape(s) && Enabled(s, a) && t.Monitor? && Proj(Step(s, a), t) == Proj(s, t)
    ensures Is(s, a, t, Nothing)
  {
    ProjShape(s, t);
    NothingHappens(Proj(s, t), s.clock);
  }

  // ---------------------------------------------------------------- connections and handshakes

  lemma ConnectIs(s: State, i: NodeId, j: NodeId, t: TokenId)
    requires SystemReady(s) && t.Monitor? && Enabled(s, Connected(i, j)) && i < s.n
    ensures Is(s, Connected(i, j), t, Nothing)
  {
    hide SystemInv, Gate, Greetings, Carries, NodeOk, OneSlot, HandleConnect, Registered, Mints, View;
    var (v', outs) := HandleConnect(s.nodes[i], j);
    ConnectOneSlot(s, i, j);
    OneSlotProj(s, i, v', {}, outs, System, t);
    ConnectMints(s, i, j);
    RegisteredAfter(s, Connected(i, j), t);
    IsNothing(s, Connected(i, j), t);
  }

  lemma HandshakeIs(s: State, p: Packet, t: TokenId)
    requires SystemReady(s) && t.Monitor? && Enabled(s, Deliver(p)) && p.msg.Handshake?
    ensures Is(s, Deliver(p), t, if ComesUp(s, p) then Rises(p.dst) else Nothing)
  {
    hide SystemInv, Gate, Greetings, NodeOk, Carries, HandshakeIn, ComeUp, Step;
    HandshakeProj(s, p, t);
    ProjShape(s, t);
    if !ComesUp(s, p) {
      IsNothing(s, Deliver(p), t);
    }
  }

  // ---------------------------------------------------------------- declaring a monitor

  lemma NewProj(s: State, i: NodeId, t0: TokenId, props: Props, t: TokenId)
    requires Barrier(s) && Coupled(s) && Enabled(s, NewMonitor(i, t0, props)) && i < s.n && t.Monitor?
    ensures var k := Proj(s, t);
      var (created, owned) := EntryFlags(s.nodes[i], t);
      var first := k.slots[i].priv.None? && k.slots[i].pub.None?;
      Proj(Step(s, NewMonitor(i, t0, props)), t) ==
        if t == t0 then Apply(k, i, Declare(k.C(i), k.slots[i], props, created, owned), {}, s.clock, {}).(minted := k.minted || (owned && first))
        else k
  {
    hide Gate, Greetings, NodeOk, Carries, HandleNew, AskFor, View, Declare, Registered, EntryFlags, Enabled, Coupled;
    var a := NewMonitor(i, t0, props);
    var v := s.nodes[i];
    var (v', outs) := HandleNew(v, t0, props);
    NewEnabled(s, i, t0, props);
    NewViews(v, t0, props);
    AskAbout(C(v), System, View(v, System));
    assert OutsAbout(outs, t) == {};
    ProjMoved(s, i, v', {}, outs, t);
    assert PacketsAbout({}, t) == {};
    RegisteredAfter(s, a, t);
    DeclareCtx(C(v), Proj(s, t).C(i), View(v, t), props, EntryFlags(v, t).0, EntryFlags(v, t).1);
    var k := Proj(s, t);
    assert k.up[i := v'.startedCluster] == k.up;
    if t != t0 {
      Idle(k, i, s.clock);
    }
  }

  lemma NewEnabled(s: State, i: NodeId, t: TokenId, props: Props)
    requires Shape(s) && Enabled(s, NewMonitor(i, t, props))
    ensures i < s.n && t.Monitor? && props.Keys == s.bound(t) && NodeOk(s.nodes[i])
  {
  }

  lemma DeclareCtx(c: Ctx, c': Ctx, s: Slot, props: Props, created: bool, owned: bool)
    requires c.n == c'.n
    ensures Declare(c, s, props, created, owned) == Declare(c', s, props, created, owned)
  {
  }

  /** How a monitor is entered agrees with whether it exists. */
  lemma FlagsAgree(s: State, i: NodeId, t: TokenId)
    requires Coupled(s) && i < s.n && t.Monitor?
    ensures var (created, owned) := EntryFlags(s.nodes[i], t);
      && (owned ==> created)
      && (created && !owned ==> Registered(s, t))
      && (owned && View(s.nodes[i], t).priv.None? ==> !Registered(s, t))
  {
    hide Registered, Carries, NodeOk;
    var v := s.nodes[i];
    assert t in v.monitors ==> Registered(s, t) by { assert ListedAt(s, i, t) <==> Lists(v, t); RegisteredFrom(s, i, t); }
    if !v.started && v.id == 0 && t !in v.priv {
      OnlyZeroLists(s, t);
    }
  }

  lemma RegisteredFrom(s: State, i: NodeId, t: TokenId)
    ensures ListedAt(s, i, t) ==> Registered(s, t)
  {
  }

  lemma OnlyZeroLists(s: State, t: TokenId)
    requires Coupled(s) && !s.nodes[0].started && t !in s.nodes[0].priv
    ensures !Registered(s, t)
  {
    assert forall x: nat :: !ListedAt(s, x, t);
  }

  lemma NewIs(s: State, i: NodeId, t0: TokenId, props: Props, t: TokenId)
    requires SystemReady(s) && t.Monitor? && Enabled(s, NewMonitor(i, t0, props)) && i < s.n
    ensures Is(s, NewMonitor(i, t0, props), t, EventOf(s, NewMonitor(i, t0, props), t))
  {
    hide SystemInv, Gate, Greetings, NodeOk, Carries, HandleNew, Declare, Registered, EntryFlags, Step;
    NewProj(s, i, t0, props, t);
    ProjShape(s, t);
    if t == t0 {
      FlagsAgree(s, i, t);
    } else {
      IsNothing(s, NewMonitor(i, t0, props), t);
    }
  }

  // ---------------------------------------------------------------- steps that move one slot

  /** Seen from another monitor nothing happens. */
  lemma OtherIs(s: State, a: Act, t0: TokenId, u: Slot, outs: set<Out>, t: TokenId)
    requires SystemReady(s) && t.Monitor? && Enabled(s, a) && t != t0 && Moves(s, a, t0, u, outs) && MintsNothing(s, a)
    ensures Is(s, a, t, Nothing)
  {
    hide SystemInv, Gate, Greetings, NodeOk, Carries, Moves, React, Registered, Mints;
    MovesProj(s, a, t0, u, outs, t);
    RegisteredAfter(s, a, t);
    IsNothing(s, a, t);
  }

  /** Seen from the monitor itself. */
  lemma OwnIs(s: State, a: Act, t: TokenId, e: Ev)
    requires SystemReady(s) && t.Monitor? && Enabled(s, a) && MintsNothing(s, a)
    requires Possible(Proj(s, t), e) && !e.Rises? && !Creates(Proj(s, t), e) && At(e) == Actor(a) && Uses(e) == Used(a)
    requires Moves(s, a, t, Effect(Proj(s, t), e).0, Effect(Proj(s, t), e).1)
    ensures Is(s, a, t, e)
  {
    hide SystemInv, Gate, Greetings, NodeOk, Carries, Moves, React, Registered, Mints, Effect, Possible, Creates;
    var (u, outs) := Effect(Proj(s, t), e);
    MovesProj(s, a, t, u, outs, t);
    RegisteredAfter(s, a, t);
    Plainly(Proj(s, t), e, s.clock);
  }

  lemma Quietly(s: State, a: Act)
    requires Shape(s) && Enabled(s, a) && !a.NewMonitor? && !a.Deliver?
    ensures MintsNothing(s, a)
  {
  }

  lemma UnlockPeers(c: Ctx, ps: set<NodeId>, t: TokenId, s: Slot)
    requires SlotOk(c, s)
    ensures RequestUnlock(c.(peers := ps), t, s) == RequestUnlock(c, t, s)
  {
  }

  lemma GivePeers(c: Ctx, ps: set<NodeId>, s: Slot, d: TokenData)
    ensures GetGive(c.(peers := ps), s, d) == GetGive(c, s, d)
  {
  }

  lemma LockIs(s: State, a: Act, t: TokenId)
    requires SystemReady(s) && t.Monitor? && Enabled(s, a) && a.LockAt?
    ensures Is(s, a, t, EventOf(s, a, t))
  {
    hide SystemInv, Gate, Greetings, NodeOk, Carries, RequestLock, RequestUnlock, Moves, AskFor, Adopt, Step, Is;
    ProjShape(s, t);
    Quietly(s, a);
    var v := s.nodes[a.i];
    UserLockMoves(s, a);
    if a.t == t {
      SameAsk(s, a.i, t, false);
      OwnIs(s, a, t, Locks(a.i));
    } else {
      OtherIs(s, a, a.t, RequestLock(C(v), a.t, View(v, a.t)).0, RequestLock(C(v), a.t, View(v, a.t)).1, t);
    }
  }

  lemma UnlockIs(s: State, a: Act, t: TokenId)
    requires SystemReady(s) && t.Monitor? && Enabled(s, a) && a.UnlockAt?
    ensures Is(s, a, t, EventOf(s, a, t))
  {
    hide SystemInv, Gate, Greetings, NodeOk, Carries, RequestLock, RequestUnlock, Moves, AskFor, Adopt, Step, Is;
    ProjShape(s, t);
    Quietly(s, a);
    var v := s.nodes[a.i];
    UserUnlockMoves(s, a);
    if a.t == t {
      UnlockPeers(C(v), Others(s.n, a.i), t, View(v, t));
      OwnIs(s, a, t, Unlocks(a.i));
    } else {
      OtherIs(s, a, a.t, RequestUnlock(C(v), a.t, View(v, a.t)).0, RequestUnlock(C(v), a.t, View(v, a.t)).1, t);
    }
  }

  lemma WriteIs(s: State, a: Act, t: TokenId)
    requires SystemReady(s) && t.Monitor? && Enabled(s, a) && a.WriteAt?
    ensures Is(s, a, t, EventOf(s, a, t))
  {
    hide SystemInv, Gate, Greetings, NodeOk, Carries, RequestLock, RequestUnlock, Moves, AskFor, Adopt, Step, Is;
    ProjShape(s, t);
    Quietly(s, a);
    var v := s.nodes[a.i];
    UserWriteMoves(s, a);
    if a.t == t {
      OwnIs(s, a, t, Writes(a.i, a.props));
    } else {
      OtherIs(s, a, a.t, View(v, a.t).(pub := Some(a.props)), {}, t);
    }
  }

  lemma RequestIs(s: State, p: Packet, t: TokenId)
    requires SystemReady(s) && t.Monitor? && Enabled(s, Deliver(p)) && p.msg.Request?
    ensures Is(s, Deliver(p), t, EventOf(s, Deliver(p), t))
  {
    hide SystemInv, Gate, Greetings, Carries, Moves, GetRequest, Step, Is;
    ProjShape(s, t);
    var v := s.nodes[p.dst];
    var t0 := p.msg.t;
    Receiving(s, p);
    RequestReaction(v, t0, p.src, p.msg.num);
    RestModest(s, Deliver(p));
    var r := GetRequest(C(v), t0, View(v, t0), p.src, p.msg.num, Carried(v, t0));
    assert Moves(s, Deliver(p), t0, r.0, r.1) by { MovesMeans(s, Deliver(p), t0, r.0, r.1); }
    if t0 == t {
      RequestPeers(C(v), Others(s.n, p.dst), t, View(v, t), p.src, p.msg.num, {});
      OwnIs(s, Deliver(p), t, Hears(p));
    } else {
      OtherIs(s, Deliver(p), t0, r.0, r.1, t);
    }
  }

  lemma GiveIs(s: State, p: Packet, t: TokenId)
    requires SystemReady(s) && t.Monitor? && Enabled(s, Deliver(p)) && p.msg.Give? && p.msg.t.Monitor?
    ensures Is(s, Deliver(p), t, EventOf(s, Deliver(p), t))
  {
    hide SystemInv, Gate, Greetings, NodeOk, Carries, Moves, GetGive, Step, Is;
    ProjShape(s, t);
    var v := s.nodes[p.dst];
    var t0 := p.msg.t;
    UserGiveMoves(s, p);
    RestModest(s, Deliver(p));
    if t0 == t {
      GivePeers(C(v), Others(s.n, p.dst), View(v, t), p.msg.data);
      OwnIs(s, Deliver(p), t, Receives(p));
    } else {
      OtherIs(s, Deliver(p), t0, GetGive(C(v), View(v, t0), p.msg.data), {}, t);
    }
  }

  /** The addressee of the system token is up. */
  lemma SystemFindsUp(s: State, p: Packet)
    requires Shape(s) && SystemInv(Proj(s, System)) && p in s.net && p.msg.Give? && p.msg.t == System
    ensures s.nodes[p.dst].startedCluster
  {
    hide Inv;
    assert p in Proj(s, System).net;
    Welcome(Proj(s, System), p);
  }

  /** The system token arrives: its list says whether the monitor exists. */
  lemma SystemIs(s: State, p: Packet, t: TokenId)
    requires SystemReady(s) && t.Monitor? && Enabled(s, Deliver(p)) && p.msg.Give? && p.msg.t == System
    ensures Is(s, Deliver(p), t, Settles(p.dst))
  {
    hide SystemInv, Gate, Greetings, Carries, NodeOk, Adopt, GiveTokenIn, Registered, Accepts, GetSystem, Step, SystemMoves;
    var k := Proj(s, t);
    var v := s.nodes[p.dst];
    ProjShape(s, t);
    SystemGive(s, p);
    SystemGiveProj(s, p, t);
    Receiving(s, p);
    RegisteredAfter(s, Deliver(p), t);
    SystemFindsUp(s, p);
    SystemLists(s, p, t);
    SameAsk(s, p.dst, t, k.minted);
    assert Possible(k, Settles(p.dst));
    SettlesMints(s, p, t);
  }

  lemma SystemLists(s: State, p: Packet, t: TokenId)
    requires Coupled(s) && t.Monitor? && p in s.net && p.msg.Give? && p.msg.t == System
    ensures Proj(s, t).minted == (t in p.msg.data.monitors)
  {
    assert Complete(s, p.msg.data.monitors);
  }

  lemma SettlesMints(s: State, p: Packet, t: TokenId)
    requires SystemReady(s) && t.Monitor? && Enabled(s, Deliver(p)) && p.msg.Give? && p.msg.t == System
    requires Possible(Proj(s, t), Settles(p.dst))
    ensures (Minted(Step(s, Deliver(p)), t) <==> Proj(s, t).minted || Creates(Proj(s, t), Settles(p.dst)))
  {
    hide SystemInv, Gate, Greetings, Carries, NodeOk, GiveTokenIn, Registered, GetSystem, Step, SystemMoves;
    RegisteredAfter(s, Deliver(p), t);
    SystemLists(s, p, t);
    SystemGive(s, p);
    Receiving(s, p);
  }

  /** Every step is the event that EventOf names. */
  lemma StepIs(s: State, a: Act, t: TokenId)
    requires SystemReady(s) && t.Monitor? && Enabled(s, a)
    ensures Is(s, a, t, EventOf(s, a, t))
  {
    hide SystemInv, Gate, Greetings, Carries, Step, React, NodeOk, Proj, Is;
    match a
    case Connected(i, j) => ConnectIs(s, i, j, t);
    case NewMonitor(i, t0, props) => NewIs(s, i, t0, props, t);
    case Deliver(p) => {
      match p.msg
      case Handshake => HandshakeIs(s, p, t);
      case Request(_, _) => RequestIs(s, p, t);
      case Give(t0, _) => { if t0 == System { SystemIs(s, p, t); } else { GiveIs(s, p, t); } }
    }
    case LockAt(_, _) => LockIs(s, a, t);
    case UnlockAt(_, _) => UnlockIs(s, a, t);
    case WriteAt(_, _, _) => WriteIs(s, a, t);
  }

  lemma ReadySmall(s: State, t: TokenId)
    requires SystemReady(s)
    ensures Barrier(s) && Coupled(s) && Bounded(s) && Shape(s) && Small(Proj(s, t))
  {
    ProjSmall(s, t);
  }

  lemma AfterShape(s: State, a: Act, t: TokenId)
    requires Shape(s) && Enabled(s, a)
    ensures WellFormed(Proj(Step(s, a), t))
  {
    StepShape(s, a);
    ProjShape(Step(s, a), t);
  }

  // ---------------------------------------------------------------- under H

  /** What holds of a user monitor before every step of a run in which only informed nodes lock. */
  ghost predicate UserReady(s: State, t: TokenId) {
    Barrier(s) && Coupled(s) && Bounded(s) && t.Monitor? && UserInv(Proj(s, t), s.bound(t))
  }

  ghost predicate UserMoves(s: State, s': State, t: TokenId) {
    UserStep(Proj(s, t), Proj(s', t), s.bound(t))
  }

  /** An event keeps the monitor's invariant and moves its token onwards. */
  lemma UserAfter(k: World, keys: set<Str>, e: Ev, stamp: nat)
    requires UserInv(k, keys) && Small(k) && Possible(k, e)
    requires e.Locks? && k.slots[e.i].priv.Some? ==> k.slots[e.i].priv.value.created
    requires (e.Declares? || e.Writes?) ==> e.props.Keys == keys
    ensures UserStep(k, After(k, e, stamp), keys)
  {
    hide UserInv, UserStep, WellFormed, RequestLock, RequestUnlock, GetRequest, GetGive, Adopt, ComeUp, Declare;
    match e
    case Nothing => { NothingHappens(k, stamp); UserStays(k, keys); }
    case Locks(i) => OnLock(k, keys, i, stamp);
    case Unlocks(i) => OnUnlock(k, keys, i, stamp);
    case Writes(i, props) => OnWrite(k, keys, i, props, stamp);
    case Declares(i, props, created, owned) => OnDeclare(k, keys, i, props, created, owned, stamp);
    case Hears(p) => OnUserRequest(k, keys, p, stamp);
    case Receives(p) => OnUserGive(k, keys, p, stamp);
    case Settles(i) => { UserCreated(k, keys, i); OnAdopt(k, keys, i, stamp); }
    case Rises(i) => OnUserUp(k, keys, i, stamp);
  }

  lemma UserStays(k: World, keys: set<Str>)
    requires UserInv(k, keys)
    ensures UserStep(k, k, keys)
  {
    OnwardSame(k);
  }

  lemma UserCreated(k: World, keys: set<Str>, i: NodeId)
    requires UserInv(k, keys) && i < k.n
    ensures k.slots[i].priv.Some? && k.slots[i].priv.value.created ==> k.minted
  {
  }

  /** Every step keeps the monitor's invariant and moves its token onwards. */
  lemma UserKept(s: State, a: Act, t: TokenId)
    requires SystemReady(s) && UserReady(s, t) && Enabled(s, a) && Informed(s, a)
    ensures UserMoves(s, Step(s, a), t)
  {
    hide UserInv, UserStep, SystemInv, Barrier, Coupled, Step, Bounded, After;
    ReadySmall(s, t);
    StepIs(s, a, t);
    EventFits(s, a, t);
    UserAfter(Proj(s, t), s.bound(t), EventOf(s, a, t), s.clock);
  }

  /** Assumption H and the declared property names, as the event sees them. */
  lemma EventFits(s: State, a: Act, t: TokenId)
    requires Shape(s) && Enabled(s, a) && Informed(s, a)
    ensures var e := EventOf(s, a, t);
      && (e.Locks? ==> e.i < s.n && var u := Proj(s, t).slots[e.i]; u.priv.Some? ==> u.priv.value.created)
      && ((e.Declares? || e.Writes?) ==> e.props.Keys == s.bound(t))
  {
  }
}
