/** The whole cluster: n nodes, the packets in flight, and one atomic step per handled event. */
module Cluster {
  import opened Basics
  import opened Properties
  import opened Token
  import opened Slot
  import opened Node
  import opened World

  /** bound(t) is the set of property names that every process binds to monitor t. */
  datatype State = State(n: nat, bound: TokenId -> set<Str>, nodes: seq<Node>, net: set<Packet>, clock: nat)

  datatype Act =
    | Connected(i: NodeId, peer: NodeId)
    | NewMonitor(i: NodeId, t: TokenId, props: Props)
    | LockAt(i: NodeId, t: TokenId)
    | UnlockAt(i: NodeId, t: TokenId)
    | WriteAt(i: NodeId, t: TokenId, props: Props)
    | Deliver(p: Packet)

  function Init(n: nat, bound: TokenId -> set<Str>): State {
    State(n, bound, seq(n, (i: int) requires i >= 0 => NewNode(n, i)), {}, 0)
  }

  predicate Carries(n: nat, m: Msg) {
    m.Give? ==> |m.data.ln| == n && forall x: nat :: x in m.data.queue ==> x < n
  }

  /** Array sizes and node numbers are in range. */
  predicate Shape(s: State) {
    && 0 < s.n == |s.nodes|
    && (forall i: nat :: i < s.n ==> NodeOk(s.nodes[i]) && s.nodes[i].id == i && s.nodes[i].n == s.n)
    && (forall p :: p in s.net ==> p.src < s.n && p.dst < s.n && Carries(s.n, p.msg))
  }

  function Actor(a: Act): NodeId {
    if a.Deliver? then a.p.dst else a.i
  }

  /** What the environment may do: no failures, every packet arrives once and after its sender's Connected event,
      user monitors have names of their own, properties are written inside the critical section. */
  predicate Enabled(s: State, a: Act)
    requires Shape(s)
  {
    Actor(a) < s.n
    && match a
       case Connected(i, j) => j < s.n && j != i && j !in s.nodes[i].peers
       case NewMonitor(i, t, props) => t.Monitor? && props.Keys == s.bound(t)
       case LockAt(i, t) => t.Monitor?
       case UnlockAt(i, t) => t.Monitor?
       case WriteAt(i, t, props) =>
         t.Monitor? && props.Keys == s.bound(t) && t in s.nodes[i].priv && s.nodes[i].priv[t].locked
       case Deliver(p) => p in s.net && p.src in s.nodes[p.dst].peers
  }

  /** The event handler: the node afterwards, and what it sends. */
  function React(s: State, a: Act): (Node, set<Out>)
    requires Shape(s) && Enabled(s, a)
  {
    var v := s.nodes[Actor(a)];
    match a
    case Connected(_, j) => HandleConnect(v, j)
    case NewMonitor(_, t, props) => HandleNew(v, t, props)
    case LockAt(_, t) => LockRequested(v, t)
    case UnlockAt(_, t) => UnlockRequested(v, t)
    case WriteAt(_, t, props) => (v.(pub := v.pub[t := props]), {})
    case Deliver(p) =>
      match p.msg
      case Handshake => HandshakeIn(v)
      case Request(t, num) => RequestTokenIn(v, t, p.src, num)
      case Give(t, d) => GiveTokenIn(v, t, d)
  }

  function Used(a: Act): set<Packet> {
    if a.Deliver? then {a.p} else {}
  }

  function Step(s: State, a: Act): State
    requires Shape(s) && Enabled(s, a)
  {
    var i := Actor(a);
    var (v, outs) := React(s, a);
    s.(nodes := s.nodes[i := v], net := s.net - Used(a) + Stamped(i, s.clock, outs), clock := s.clock + 1)
  }

  /** Assumption H: a lock is dispatched only at a node that knows the monitor to be created. */
  predicate Informed(s: State, a: Act)
    requires Shape(s) && Enabled(s, a)
  {
    a.LockAt? && a.t in s.nodes[a.i].priv ==> s.nodes[a.i].priv[a.t].created
  }

  /** The bound on request numbers. */
  predicate Bounded(s: State)
    requires Shape(s)
  {
    forall i: nat, t :: i < s.n && t in s.nodes[i].priv ==> s.nodes[i].priv[t].rn[i] < U32_MAX
  }

  /** One step, under H when `informed`. */
  ghost predicate Next(informed: bool, s: State, a: Act, s': State) {
    Shape(s) && Bounded(s) && Enabled(s, a) && (informed ==> Informed(s, a)) && s' == Step(s, a)
  }

  /** A run from the initial state. */
  ghost predicate Run(informed: bool, ss: seq<State>, acts: seq<Act>) {
    && |ss| == |acts| + 1
    && ss[0].n > 0 && ss[0] == Init(ss[0].n, ss[0].bound)
    && forall k: nat :: k < |acts| ==> Next(informed, ss[k], acts[k], ss[k + 1])
  }

  // ---------------------------------------------------------------- sizes are kept

  predicate OutsOk(n: nat, outs: set<Out>) {
    forall o :: o in outs ==> o.dst < n && Carries(n, o.msg)
  }

  lemma PutOk(v: Node, t: TokenId, s: Slot)
    requires NodeOk(v) && SlotOk(C(v), s)
    ensures NodeOk(Put(v, t, s)) && C(Put(v, t, s)) == C(v)
  {
  }

  lemma PassOk(c: Ctx, t: TokenId, s: Slot, mons: set<TokenId>)
    requires SlotOk(c, s) && s.priv.Some?
    ensures SlotOk(c, ReleaseAndPass(c, t, s, mons).0) && OutsOk(c.n, ReleaseAndPass(c, t, s, mons).1)
  {
    var p := Release(s.priv.value, c.id);
    ReleaseFrame(s.priv.value, c.id, c.n);
    if p.queue != [] {
      assert p.queue[0] in p.queue;
      assert forall x :: x in p.queue[1..] ==> x in p.queue;
    }
  }

  /** A handler's result is in range. */
  predicate ResultOk(v: Node, r: (Node, set<Out>)) {
    NodeOk(r.0) && r.0.id == v.id && r.0.n == v.n && OutsOk(v.n, r.1)
  }

  lemma NewOk(v: Node, t: TokenId, props: Props)
    requires NodeOk(v)
    ensures ResultOk(v, HandleNew(v, t, props))
  {
    hide Declare, AskFor, View, EntryFlags, SlotOk;
    var (created, owned) := EntryFlags(v, t);
    DeclareOk(v, t, props, created, owned);
    var v1 := Put(v, t, Declare(C(v), View(v, t), props, created, owned));
    AskOk(v);
    PutOk(v, t, Declare(C(v), View(v, t), props, created, owned));
    PutOk(v1, System, AskFor(C(v), System, View(v, System)).0);
  }

  lemma DeclareOk(v: Node, t: TokenId, props: Props, created: bool, owned: bool)
    requires NodeOk(v)
    ensures SlotOk(C(v), Declare(C(v), View(v, t), props, created, owned))
  {
  }

  lemma AskOk(v: Node)
    requires NodeOk(v)
    ensures SlotOk(C(v), View(v, System))
    ensures SlotOk(C(v), AskFor(C(v), System, View(v, System)).0) && OutsOk(v.n, AskFor(C(v), System, View(v, System)).1)
  {
  }

  lemma HandshakeOk(v: Node)
    requires NodeOk(v)
    ensures ResultOk(v, HandshakeIn(v))
  {
    hide ComeUp;
    var u := v.(handshakes := v.handshakes + 1, startedCluster := true);
    forall t | t in u.priv
      ensures SlotOk(C(u), ComeUp(C(u), t, View(u, t)).0) && ComeUp(C(u), t, View(u, t)).0.priv.Some? && OutsOk(v.n, ComeUp(C(u), t, View(u, t)).1)
    {
      ComeUpOk(C(u), t, View(u, t));
    }
  }

  lemma ComeUpOk(c: Ctx, t: TokenId, s: Slot)
    requires SlotOk(c, s) && c.peers <= Range(c.n)
    ensures var (s', outs) := ComeUp(c, t, s);
      SlotOk(c, s') && (s.priv.Some? ==> s'.priv.Some?) && OutsOk(c.n, outs)
  {
  }

  lemma RequestOk(v: Node, t: TokenId, from: NodeId, num: U32)
    requires NodeOk(v) && from < v.n
    ensures ResultOk(v, RequestTokenIn(v, t, from, num))
  {
    hide NewPriv, Put, SlotOk;
    var u := View(v, t);
    ViewInRange(v, t);
    var r := GetRequest(C(v), t, u, from, num, Carried(v, t));
    RequestSlotOk(C(v), t, u, from, num, Carried(v, t));
    if v.started {
      PutOk(v, t, r.0);
      PutPlain(v, t, r.0);
    }
  }

  lemma ViewInRange(v: Node, t: TokenId)
    requires NodeOk(v)
    ensures SlotOk(C(v), View(v, t))
  {
  }

  lemma PutPlain(v: Node, t: TokenId, s: Slot)
    ensures Put(v, t, s).id == v.id && Put(v, t, s).n == v.n
  {
  }

  lemma RequestSlotOk(c: Ctx, t: TokenId, s: Slot, from: NodeId, num: U32, mons: set<TokenId>)
    requires SlotOk(c, s) && from < c.n
    ensures SlotOk(c, GetRequest(c, t, s, from, num, mons).0) && OutsOk(c.n, GetRequest(c, t, s, from, num, mons).1)
  {
  }

  lemma ConnectOk(v: Node, j: NodeId)
    requires NodeOk(v) && j < v.n
    ensures ResultOk(v, HandleConnect(v, j))
  {
  }

  lemma LockOk(v: Node, t: TokenId)
    requires NodeOk(v)
    ensures ResultOk(v, LockRequested(v, t))
  {
  }

  lemma WriteOk(v: Node, t: TokenId, props: Props)
    requires NodeOk(v)
    ensures ResultOk(v, (v.(pub := v.pub[t := props]), {}))
  {
  }

  lemma UnlockOk(v: Node, t: TokenId)
    requires NodeOk(v)
    ensures ResultOk(v, UnlockRequested(v, t))
  {
    hide Put, View, SlotOk, ReleaseAndPass;
    var u := View(v, t);
    ViewInRange(v, t);
    if u.priv.Some? && u.priv.value.locked {
      Unlocked(C(v), u);
      PassOk(C(v), t, u.(priv := Some(u.priv.value.(locked := false))), {});
    }
    PutOk(v, t, RequestUnlock(C(v), t, u).0);
    PutPlain(v, t, RequestUnlock(C(v), t, u).0);
  }

  lemma Unlocked(c: Ctx, s: Slot)
    requires SlotOk(c, s) && s.priv.Some?
    ensures SlotOk(c, s.(priv := Some(s.priv.value.(locked := false))))
  {
  }

  lemma AdoptOk(v: Node, t: TokenId, exists_: bool)
    requires NodeOk(v)
    ensures SlotOk(C(v), Adopt(C(v), t, View(v, t), exists_).0) && OutsOk(v.n, Adopt(C(v), t, View(v, t), exists_).1)
    ensures t in v.priv ==> Adopt(C(v), t, View(v, t), exists_).0.priv.Some?
  {
  }

  lemma AdoptAllOk(v: Node, mons: set<TokenId>)
    requires NodeOk(v)
    ensures ResultOk(v, AdoptAll(v, mons))
  {
    hide Adopt;
    forall t
      ensures SlotOk(C(v), Adopt(C(v), t, View(v, t), t in mons).0) && OutsOk(v.n, Adopt(C(v), t, View(v, t), t in mons).1)
      ensures t in v.priv ==> Adopt(C(v), t, View(v, t), t in mons).0.priv.Some?
    {
      AdoptOk(v, t, t in mons);
    }
  }

  lemma GiveOk(v: Node, t: TokenId, d: TokenData)
    requires NodeOk(v) && Carries(v.n, Give(t, d))
    ensures ResultOk(v, GiveTokenIn(v, t, d))
  {
    if t == System && v.started && Accepts(View(v, System)) {
      AdoptAllOk(v, d.monitors);
      var mons := d.monitors + Unsettled(v);
      PassOk(C(v), System, Taken(C(v), View(v, System), d), mons);
      PutOk(AdoptAll(v, d.monitors).0, System, GetSystem(C(v), View(v, System), d, mons).0);
    }
  }

  lemma ReactOk(s: State, a: Act)
    requires Shape(s) && Enabled(s, a)
    ensures ResultOk(s.nodes[Actor(a)], React(s, a))
  {
    hide HandleNew, UnlockRequested, HandshakeIn, RequestTokenIn, GiveTokenIn, HandleConnect, LockRequested, ResultOk;
    var v := s.nodes[Actor(a)];
    match a
    case NewMonitor(_, t, props) => NewOk(v, t, props);
    case UnlockAt(_, t) => UnlockOk(v, t);
    case Deliver(p) => {
      match p.msg
      case Handshake => HandshakeOk(v);
      case Request(t, num) => RequestOk(v, t, p.src, num);
      case Give(t, d) => GiveOk(v, t, d);
    }
    case Connected(_, j) => ConnectOk(v, j);
    case LockAt(_, t) => LockOk(v, t);
    case WriteAt(_, t, props) => WriteOk(v, t, props);
  }

  lemma StepShape(s: State, a: Act)
    requires Shape(s) && Enabled(s, a)
    ensures Shape(Step(s, a))
  {
    ReactOk(s, a);
    var (v, outs) := React(s, a);
    forall p | p in Stamped(Actor(a), s.clock, outs)
      ensures p.src < s.n && p.dst < s.n && Carries(s.n, p.msg)
    {
      assert Out(p.dst, p.msg) in outs;
    }
  }

  lemma InitShape(n: nat, bound: TokenId -> set<Str>)
    requires n > 0
    ensures Shape(Init(n, bound))
  {
  }

  /** Every state of a run is well shaped, so asking for it in Next shuts out nothing. */
  lemma RunShape(informed: bool, ss: seq<State>, acts: seq<Act>, k: nat)
    requires Run(informed, ss, acts) && k < |ss|
    ensures Shape(ss[k]) && ss[k].n == ss[0].n && ss[k].bound == ss[0].bound
  {
    hide NodeOk, Carries, Bounded, Informed, React;
    if k == 0 {
      InitShape(ss[0].n, ss[0].bound);
    } else {
      RunShape(informed, ss, acts, k - 1);
      var j: nat := k - 1;
      assert Next(informed, ss[j], acts[j], ss[j + 1]);
      StepShape(ss[k - 1], acts[k - 1]);
    }
  }
}
