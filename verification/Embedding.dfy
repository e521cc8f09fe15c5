/** In every run of a cluster, what each node goes through is a sequence of events that fit, and leads to the node's state. */
module Embedding {
  import opened Basics
  import opened Properties
  import opened Token
  import opened Slot
  import opened Node
  import opened World
  import opened Cluster
  import opened Startup
  import opened Tokens
  import opened Runs
  import opened SharedMonitor
  import opened TokenMap
  import opened Handlers
  import opened NodeEvents

  /** The event that the step is for the node it happens at. A packet's map reads back as the token under way. */
  ghost predicate Means(e: Event, a: Act) {
    match a
    case Connected(_, j) => e == Connect(j)
    case NewMonitor(_, t, props) => e == New(t, props)
    case LockAt(_, t) => e == Lock(t)
    case UnlockAt(_, t) => e == Unlock(t)
    case WriteAt(_, t, props) => e == Write(t, props)
    case Deliver(p) =>
      match p.msg
      case Handshake => e == HandshakePacket
      case Request(t, num) => e == RequestPacket(t, p.src, num)
      case Give(t, d) => e.TokenPacket? && e.id == t && Readable(t, e.data) && Unpack(t, e.data) == d
  }

  /** es is what node i goes through in these steps. */
  ghost predicate Through(i: NodeId, acts: seq<Act>, es: seq<Event>) {
    if acts == [] then es == []
    else
      var a, before := acts[|acts| - 1], acts[..|acts| - 1];
      if Actor(a) == i then es != [] && Means(es[|es| - 1], a) && Through(i, before, es[..|es| - 1])
      else Through(i, before, es)
  }

  /** Assumption: no process binds a variable under a reserved name. */
  ghost predicate PlainNames(bound: TokenId -> set<Str>) {
    forall t, x :: x in bound(t) ==> !Reserved(x)
  }

  /** The handshake that makes a node see the cluster as started finds it started itself. */
  lemma LastHandshake(s: State, a: Act)
    requires Barrier(s) && Enabled(s, a) && a.Deliver? && a.p.msg.Handshake?
    requires s.nodes[a.p.dst].handshakes + 1 >= s.n - 1
    ensures s.nodes[a.p.dst].started
  {
    hide Greetings, Gate, NodeOk, Carries, Heard;
    var i := a.p.dst;
    BarrierKept(s, a);
    HandshakeInStart(s.nodes[i]);
    EveryoneHeard(Step(s, a), i);
  }

  lemma StepFits(s: State, a: Act, e: Event)
    requires Barrier(s) && Enabled(s, a) && Means(e, a) && PlainNames(s.bound)
    ensures var v := s.nodes[Actor(a)]; Fits(v, e) && Handled(v, e) == React(s, a)
  {
    hide NodeOk, Greetings, Gate, TokenIn, Unpack, HandleConnect, HandleNew, HandshakeIn, RequestTokenIn, GiveTokenIn, LockRequested, UnlockRequested;
    if a.Deliver? {
      if a.p.msg.Handshake? && s.nodes[a.p.dst].handshakes + 1 >= s.n - 1 {
        LastHandshake(s, a);
      } else if a.p.msg.Give? {
        TokenInUnpacked(e.id, e.data, s.n, s.nodes[a.p.dst].monitors);
      }
    }
  }

  /** At every point of every run each node is what its own events, one after another, make of a new node. */
  lemma {:induction false} NodeGoesThrough(informed: bool, ss: seq<State>, acts: seq<Act>, k: nat, i: NodeId, es: seq<Event>)
    requires Run(informed, ss, acts) && k < |ss| && i < ss[0].n && Through(i, acts[..k], es) && PlainNames(ss[0].bound)
    ensures Shape(ss[k]) && i < |ss[k].nodes| && ss[k].n == ss[0].n && ss[k].bound == ss[0].bound
    ensures After(NewNode(ss[0].n, i), es) == Some(ss[k].nodes[i])
  {
    hide Run, Safe, Shape, Bounded, Informed, Step, Barrier, Means, Fits, Handled;
    RunLength(informed, ss, acts);
    RunShape(informed, ss, acts, k);
    RunStart(informed, ss, acts);
    if k > 0 {
      var last: nat := k - 1;
      var a := acts[last];
      assert acts[..k][..last] == acts[..last];
      RunStep(informed, ss, acts, last);
      var es' := if Actor(a) == i then es[..|es| - 1] else es;
      NodeGoesThrough(informed, ss, acts, last, i, es');
      RunSafe(informed, ss, acts, last);
      SafeBarrier(ss[last]);
      OneMoves(ss[last], a);
      if Actor(a) == i {
        StepFits(ss[last], a, es[|es| - 1]);
      }
    }
  }

  lemma OneMoves(s: State, a: Act)
    requires Shape(s) && Enabled(s, a)
    ensures var s' := Step(s, a);
      && s'.n == s.n && s'.bound == s.bound && s'.nodes == s.nodes[Actor(a) := React(s, a).0] && |s.nodes| == s.n
  {
  }

  // ---------------------------------------------------------------- every run has such events

  /** The system token has no properties, and the other tokens no monitor set. */
  predicate Tidy(m: Msg) {
    m.Give? ==> if m.t == System then m.data.props == map[] && System !in m.data.monitors else m.data.monitors == {}
  }

  /** One handler's result. */
  predicate TidyResult(r: (Node, set<Out>)) {
    System !in r.0.pub && forall o :: o in r.1 ==> Tidy(o.msg)
  }

  lemma RequestTidy(v: Node, t: TokenId, from: NodeId, num: U32)
    requires NodeOk(v) && from < v.n && System !in v.pub && System !in v.monitors
    ensures TidyResult(RequestTokenIn(v, t, from, num))
  {
  }

  lemma UnlockTidy(v: Node, t: TokenId)
    requires NodeOk(v) && System !in v.pub && t.Monitor?
    ensures TidyResult(UnlockRequested(v, t))
  {
  }

  lemma GiveTidy(v: Node, t: TokenId, d: TokenData)
    requires NodeOk(v) && Carries(v.n, Give(t, d)) && System !in v.pub && Tidy(Give(t, d))
    ensures TidyResult(GiveTokenIn(v, t, d))
  {
    hide Adopt, Release, AdoptAll, GetSystem;
    if t == System {
      AdoptAllTidy(v, d.monitors);
      GetSystemTidy(C(v), View(v, System), d, d.monitors + Unsettled(v));
    }
  }

  lemma AdoptAllTidy(v: Node, mons: set<TokenId>)
    requires NodeOk(v)
    ensures AdoptAll(v, mons).0.pub == v.pub && forall o :: o in AdoptAll(v, mons).1 ==> !o.msg.Give?
  {
    hide Adopt;
    forall x | x in v.priv
      ensures forall o :: o in Adopt(C(v), x, View(v, x), x in mons).1 ==> !o.msg.Give?
    {
      AdoptAsks(C(v), x, View(v, x), x in mons);
    }
  }

  lemma GetSystemTidy(c: Ctx, s: Slot, d: TokenData, mons: set<TokenId>)
    requires SlotOk(c, s) && Carries(c.n, Give(System, d)) && s.pub.None? && System !in mons
    ensures GetSystem(c, s, d, mons).0.pub == None && forall o :: o in GetSystem(c, s, d, mons).1 ==> Tidy(o.msg)
  {
  }

  lemma AdoptAsks(c: Ctx, t: TokenId, s: Slot, b: bool)
    requires SlotOk(c, s)
    ensures forall o :: o in Adopt(c, t, s, b).1 ==> !o.msg.Give?
  {
  }

  lemma NewTidy(v: Node, t: TokenId, props: Props)
    requires NodeOk(v) && System !in v.pub && t.Monitor?
    ensures TidyResult(HandleNew(v, t, props))
  {
    hide EntryFlags;
  }

  lemma LockTidy(v: Node, t: TokenId)
    requires NodeOk(v) && System !in v.pub && t.Monitor?
    ensures TidyResult(LockRequested(v, t))
  {
  }

  lemma HandshakeTidy(v: Node)
    requires NodeOk(v) && System !in v.pub
    ensures TidyResult(HandshakeIn(v))
  {
  }

  lemma ReactTidy(s: State, a: Act)
    requires Shape(s) && Enabled(s, a) && (a.Deliver? ==> Tidy(a.p.msg))
    requires System !in s.nodes[Actor(a)].pub && System !in s.nodes[Actor(a)].monitors
    ensures TidyResult(React(s, a))
  {
    hide TidyResult, Tidy, NodeOk, HandleConnect, HandleNew, HandshakeIn, RequestTokenIn, GiveTokenIn, LockRequested, UnlockRequested;
    var v := s.nodes[Actor(a)];
    match a
    case Connected(_, j) => ConnectTidy(v, j);
    case NewMonitor(_, t, props) => NewTidy(v, t, props);
    case LockAt(_, t) => LockTidy(v, t);
    case UnlockAt(_, t) => UnlockTidy(v, t);
    case WriteAt(_, t, props) => WriteTidy(v, t, props);
    case Deliver(p) => {
      match p.msg
      case Handshake => HandshakeTidy(v);
      case Request(t, num) => RequestTidy(v, t, p.src, num);
      case Give(t, d) => GiveTidy(v, t, d);
    }
  }

  lemma ConnectTidy(v: Node, j: NodeId)
    requires System !in v.pub
    ensures TidyResult(HandleConnect(v, j))
  {
  }

  lemma WriteTidy(v: Node, t: TokenId, props: Props)
    requires System !in v.pub && t.Monitor?
    ensures TidyResult((v.(pub := v.pub[t := props]), {}))
  {
  }

  ghost predicate TidyState(s: State) {
    && (forall i: nat :: i < |s.nodes| ==> System !in s.nodes[i].pub)
    && (forall p :: p in s.net ==> Tidy(p.msg))
  }

  lemma StepTidy(s: State, a: Act)
    requires Shape(s) && Coupled(s) && TidyState(s) && Enabled(s, a)
    ensures TidyState(Step(s, a))
  {
    hide React, Tidy, NodeOk, Carries;
    assert NodeCoupled(s.nodes[Actor(a)]);
    ReactTidy(s, a);
    forall p | p in Step(s, a).net
      ensures Tidy(p.msg)
    {
      if p in Stamped(Actor(a), s.clock, React(s, a).1) {
        SentIsOut(Actor(a), s.clock, React(s, a).1, p);
      }
    }
  }

  lemma {:induction false} RunTidy(informed: bool, ss: seq<State>, acts: seq<Act>, k: nat)
    requires Run(informed, ss, acts) && k < |ss|
    ensures TidyState(ss[k])
  {
    hide Run, Safe, Shape, Bounded, Informed, Step, Enabled, Coupled;
    RunLength(informed, ss, acts);
    if k == 0 {
      RunStart(informed, ss, acts);
    } else {
      RunTidy(informed, ss, acts, k - 1);
      RunStep(informed, ss, acts, k - 1);
      RunSafe(informed, ss, acts, k - 1);
      SafeCoupled(ss[k - 1]);
      StepTidy(ss[k - 1], acts[k - 1]);
    }
  }

  lemma SafeCoupled(s: State)
    requires Safe(s)
    ensures Coupled(s)
  {
  }

  /** A set of user monitors can be listed. */
  lemma {:induction false} Listable(mons: set<TokenId>) returns (names: seq<Str>)
    requires System !in mons
    ensures Enumerates(names, mons)
  {
    names := [];
    if t :| t in mons {
      var rest := Listable(mons - {t});
      names := rest + [t.name];
      assert Monitor(t.name) == t && t !in mons - {t};
    }
  }

  /** The token under way fits into a map that reads back as that token. */
  lemma MapFor(n: nat, t: TokenId, d: TokenData) returns (m: Props)
    requires n <= U32_MAX && Carries(n, Give(t, d)) && Tidy(Give(t, d)) && (t.Monitor? ==> Plain(d.props))
    ensures Readable(t, m) && Unpack(t, m) == d
  {
    hide Pack, Unpack, Enumerates;
    var names := [];
    if t == System {
      names := Listable(d.monitors);
    }
    PackRoundTrip(t, d, names);
    m := Pack(t, d, names);
  }

  /** Properties under way have the names that are bound to their monitor. */
  lemma PropsPlain(informed: bool, ss: seq<State>, acts: seq<Act>, k: nat, p: Packet)
    requires Run(informed, ss, acts) && k < |ss| && p in ss[k].net && p.msg.Give? && p.msg.t.Monitor? && PlainNames(ss[k].bound)
    ensures Plain(p.msg.data.props)
  {
    hide Run;
    TokenHasLastWrite(informed, ss, acts, k, p.msg.t);
    assert p in Proj(ss[k], p.msg.t).net;
  }

  lemma EventFor(informed: bool, ss: seq<State>, acts: seq<Act>, k: nat) returns (e: Event)
    requires Run(informed, ss, acts) && k < |acts| && ss[0].n <= U32_MAX && PlainNames(ss[0].bound)
    ensures Means(e, acts[k])
  {
    hide Run, Bounded, Informed, Step, NodeOk, PlainNames, Plain, Tidy, Unpack;
    RunLength(informed, ss, acts);
    RunShape(informed, ss, acts, k);
    RunStep(informed, ss, acts, k);
    RunTidy(informed, ss, acts, k);
    match acts[k] {
      case Connected(_, j) => e := Connect(j);
      case NewMonitor(_, t, props) => e := New(t, props);
      case LockAt(_, t) => e := Lock(t);
      case UnlockAt(_, t) => e := Unlock(t);
      case WriteAt(_, t, props) => e := Write(t, props);
      case Deliver(p) =>
        match p.msg
        case Handshake => e := HandshakePacket;
        case Request(t, num) => e := RequestPacket(t, p.src, num);
        case Give(t, d) =>
          if t.Monitor? {
            PropsPlain(informed, ss, acts, k, p);
          }
          var m := MapFor(ss[0].n, t, d);
          e := TokenPacket(t, m);
    }
  }

  lemma {:induction false} EventsFor(informed: bool, ss: seq<State>, acts: seq<Act>, k: nat, i: NodeId) returns (es: seq<Event>)
    requires Run(informed, ss, acts) && k < |ss| && ss[0].n <= U32_MAX && PlainNames(ss[0].bound)
    ensures Through(i, acts[..k], es)
  {
    hide Run, Means, PlainNames;
    RunLength(informed, ss, acts);
    es := [];
    if k > 0 {
      var last: nat := k - 1;
      es := EventsFor(informed, ss, acts, last, i);
      assert acts[..k][..last] == acts[..last];
      if Actor(acts[last]) == i {
        var e := EventFor(informed, ss, acts, last);
        assert (es + [e])[..|es|] == es;
        es := es + [e];
      }
    }
  }

  /** So every run of a cluster is one of n objects: each node has events that fit, and that make of a new node what the
      run makes of it. */
  lemma EveryNodeGoesThrough(informed: bool, ss: seq<State>, acts: seq<Act>, k: nat, i: NodeId)
    requires Run(informed, ss, acts) && k < |ss| && i < ss[0].n <= U32_MAX && PlainNames(ss[0].bound)
    ensures i < |ss[k].nodes| && exists es :: Through(i, acts[..k], es) && After(NewNode(ss[0].n, i), es) == Some(ss[k].nodes[i])
  {
    hide Run, After, PlainNames, Shape;
    RunLength(informed, ss, acts);
    var es := EventsFor(informed, ss, acts, k, i);
    NodeGoesThrough(informed, ss, acts, k, i, es);
  }
}
