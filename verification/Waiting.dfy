/** Who waits for a grant: what becomes of an entry in m_pendingGrants. */
module Waiting {
  import opened Basics
  import opened Properties
  import opened Token
  import opened Slot
  import opened Node
  import opened World
  import opened UserEvents
  import opened Refinement
  import opened Monitors
  import opened Brackets
  import opened Attention
  import opened Values
  import opened Cluster
  import opened Startup
  import opened Tokens
  import opened Users
  import opened Exclusion
  import opened Runs
  import opened Theorems
  import opened Always
  import opened Conservation
  import opened Pending

  // ---------------------------------------------------------------- in terms of slots

  /** Whoever waits has a record, has declared the monitor and is not inside. Once the node is up it does not have the token,
      and has asked for it unless the record is yet to be settled. */
  predicate Attended(s: Slot, up: bool) {
    s.pendGrant ==>
      && s.priv.Some? && s.pub.Some? && !s.priv.value.locked
      && (up ==> !s.priv.value.owned && (s.priv.value.created ==> s.pendReq))
  }

  predicate AllAttended(k: World) {
    WellFormed(k) && forall i: nat :: i < k.n ==> Attended(k.slots[i], k.up[i])
  }

  /** The node comes up with somebody waiting for a monitor that it knows to exist, does not have and has not asked for. */
  predicate Overlooks(k: World, e: Ev)
    requires Possible(k, e)
  {
    e.Rises? && var s := k.slots[e.i];
      s.pendGrant && s.priv.Some? && s.priv.value.created && !s.priv.value.owned && !s.pendReq
  }

  /** An event leaves nobody unattended exactly when it does not overlook who waits. */
  lemma EffectAttends(k: World, e: Ev)
    requires AllAttended(k) && Possible(k, e) && At(e) < k.n
    ensures Attended(Effect(k, e).0, k.up[At(e)] || e.Rises?) <==> !Overlooks(k, e)
  {
    hide Release, Latecomers;
  }

  lemma AttendedAfter(k: World, e: Ev, stamp: nat)
    requires AllAttended(k) && Possible(k, e) && At(e) < k.n && WellFormed(After(k, e, stamp))
    ensures AllAttended(After(k, e, stamp)) <==> !Overlooks(k, e)
  {
    hide Effect, Overlooks, Attended;
    EffectAttends(k, e);
    var k' := After(k, e, stamp);
    assert k'.slots == k.slots[At(e) := Effect(k, e).0];
    assert k'.up == if e.Rises? then k.up[At(e) := true] else k.up;
    assert Attended(k'.slots[At(e)], k'.up[At(e)]) <==> !Overlooks(k, e);
    forall i: nat | i < k.n && i != At(e)
      ensures Attended(k'.slots[i], k'.up[i])
    {
      assert Attended(k.slots[i], k.up[i]);
    }
  }

  // ---------------------------------------------------------------- states and steps

  /** The same of all nodes: in m_pendingGrants is only who has a record, has declared the monitor and is not inside; and at
      a node that is up, only who does not have the token and has asked for it, or has a record yet to be settled. */
  predicate WaitsAttended(s: State, t: TokenId) {
    forall i: nat :: i < |s.nodes| && t in s.nodes[i].pendingGrants ==> NodeAttends(s.nodes[i], t)
  }

  predicate NodeAttends(v: Node, t: TokenId) {
    && t in v.priv && t in v.pub && !v.priv[t].locked
    && (v.startedCluster ==> !v.priv[t].owned && (v.priv[t].created ==> t in v.pendingRequests))
  }

  /** The step that goes wrong: the last handshake arrives where somebody waits for a monitor that the node knows to exist,
      does not have and has not asked for. */
  predicate OverlooksWait(s: State, a: Act, t: TokenId)
    requires Shape(s) && Enabled(s, a)
  {
    a.Deliver? && a.p.msg.Handshake? && ComesUp(s, a.p)
    && var v := s.nodes[a.p.dst];
      t in v.pendingGrants && t in v.priv && v.priv[t].created && !v.priv[t].owned && t !in v.pendingRequests
  }

  lemma AttendedIs(s: State, t: TokenId)
    requires Shape(s) && WellFormed(Proj(s, t))
    ensures WaitsAttended(s, t) <==> AllAttended(Proj(s, t))
  {
    hide Shape, WellFormed, Proj;
    var k := Proj(s, t);
    ShapeSize(s);
    forall i: nat | i < s.n
      ensures i < |k.slots| == |k.up| == k.n == s.n
      ensures Attended(k.slots[i], k.up[i]) <==> (t in s.nodes[i].pendingGrants ==> NodeAttends(s.nodes[i], t))
    {
      SlotIs(s, t, i);
    }
    SlotIs(s, t, 0);
    if AllAttended(k) {
      forall i: nat | i < |s.nodes| && t in s.nodes[i].pendingGrants
        ensures NodeAttends(s.nodes[i], t)
      {
        assert Attended(k.slots[i], k.up[i]);
      }
    }
  }

  lemma ShapeSize(s: State)
    requires Shape(s)
    ensures 0 < s.n == |s.nodes|
  {
  }

  lemma OverlooksIs(s: State, a: Act, t: TokenId)
    requires Shape(s) && Enabled(s, a) && t.Monitor? && Possible(Proj(s, t), EventOf(s, a, t))
    ensures Overlooks(Proj(s, t), EventOf(s, a, t)) <==> OverlooksWait(s, a, t)
  {
    hide ComesUp, Possible;
    if a.Deliver? && a.p.msg.Handshake? {
      SlotIs(s, t, a.p.dst);
    }
  }

  lemma EventThere(s: State, a: Act, t: TokenId)
    requires Shape(s) && Enabled(s, a)
    ensures At(EventOf(s, a, t)) < s.n == Proj(s, t).n
  {
    hide ComesUp;
  }

  lemma StepAttends(s: State, a: Act, t: TokenId)
    requires WReady(s, t) && Enabled(s, a) && WaitsAttended(s, t)
    ensures Shape(Step(s, a)) && (WaitsAttended(Step(s, a), t) <==> !OverlooksWait(s, a, t))
  {
    hide SystemReady, WInv, Mail, Step, Single, After, WaitsAttended, OverlooksWait, Overlooks, AllAttended;
    ReadySmall(s, t);
    WSingle(Proj(s, t));
    SingleKept(s, a, t);
    StepShape(s, a);
    StepIs(s, a, t);
    Formed(Proj(s, t));
    Formed(Proj(Step(s, a), t));
    AttendedIs(s, t);
    AttendedIs(Step(s, a), t);
    EventThere(s, a, t);
    AttendedAfter(Proj(s, t), EventOf(s, a, t), s.clock);
    OverlooksIs(s, a, t);
  }

  // ---------------------------------------------------------------- runs

  ghost predicate OverlooksIn(ss: seq<State>, acts: seq<Act>, j: nat, t: TokenId) {
    j < |acts| && j < |ss| && Shape(ss[j]) && Enabled(ss[j], acts[j]) && OverlooksWait(ss[j], acts[j], t)
  }

  ghost predicate AttendedIn(ss: seq<State>, j: nat, t: TokenId) {
    j < |ss| && WaitsAttended(ss[j], t)
  }

  /** In any run, up to step k: whoever waits has been attended to in every state if and only if no node has come up with
      somebody waiting for a monitor that it knew to exist, did not have and had not asked for. */
  lemma {:induction false} WaitingExactly(informed: bool, ss: seq<State>, acts: seq<Act>, k: nat, t: TokenId)
    requires Run(informed, ss, acts) && k < |ss| && t.Monitor?
    ensures (forall j: nat :: j <= k ==> AttendedIn(ss, j, t)) <==> (forall j: nat :: j < k ==> !OverlooksIn(ss, acts, j, t))
  {
    hide Run, WReady, Step, Bounded, Informed, Shape, Enabled, WaitsAttended, OverlooksWait;
    RunLength(informed, ss, acts);
    RunShape(informed, ss, acts, k);
    if k == 0 {
      RunStart(informed, ss, acts);
      NobodyWaits(ss[0].n, ss[0].bound, t);
    } else {
      var last: nat := k - 1;
      WaitingExactly(informed, ss, acts, last, t);
      RunWReady(informed, ss, acts, last, t);
      RunStep(informed, ss, acts, last);
      if WaitsAttended(ss[last], t) {
        StepAttends(ss[last], acts[last], t);
      }
      assert AttendedIn(ss, last, t) ==> (AttendedIn(ss, last + 1, t) <==> !OverlooksIn(ss, acts, last, t));
    }
  }

  lemma NobodyWaits(n: nat, bound: TokenId -> set<Str>, t: TokenId)
    ensures WaitsAttended(Init(n, bound), t)
  {
  }

  // ---------------------------------------------------------------- records yet to be settled

  /** The node has asked for the system token if a record of its is yet to be settled. */
  predicate SettlesSoon(v: Node) {
    (exists t :: t in v.priv && t != System && !v.priv[t].created) ==> System in v.pendingRequests
  }

  lemma PutSettles(v: Node, t: TokenId, s: Slot)
    requires SettlesSoon(v)
    requires if t == System then View(v, t).pendReq ==> s.pendReq else Open(s) ==> Open(View(v, t))
    ensures SettlesSoon(Put(v, t, s))
  {
    var w := Put(v, t, s);
    if x :| x in w.priv && x != System && !w.priv[x].created {
      assert x in v.priv && !v.priv[x].created;
    }
  }

  lemma ReactSettles(s: State, a: Act)
    requires Shape(s) && Enabled(s, a) && SettlesSoon(s.nodes[Actor(a)])
    ensures SettlesSoon(React(s, a).0)
  {
    hide SettlesSoon, HandleConnect, HandleNew, HandshakeIn, GiveTokenIn, GetRequest, GetGive, RequestLock, RequestUnlock, Put, View, Shape, NodeOk;
    ThereOk(s, a);
    var v := s.nodes[Actor(a)];
    match a
    case Connected(_, j) => ConnectSettles(v, j);
    case NewMonitor(_, t, props) => NewSettles(v, t, props);
    case LockAt(_, t) => LockSettles(v, t);
    case UnlockAt(_, t) => LockSettles(v, t);
    case WriteAt(_, t, props) => WriteSettles(v, t, props);
    case Deliver(p) =>
      match p.msg
      case Handshake => HandshakeSettles(v);
      case Request(t, num) => RequestSettles(v, t, p.src, num);
      case Give(t, d) => GiveSettles(v, t, d);
  }

  lemma ThereOk(s: State, a: Act)
    requires Shape(s) && Enabled(s, a)
    ensures Actor(a) < s.n == |s.nodes| && NodeOk(s.nodes[Actor(a)]) && s.nodes[Actor(a)].n == s.n
    ensures a.Deliver? ==> a.p.src < s.n && Carries(s.n, a.p.msg)
  {
    hide NodeOk;
  }

  lemma ConnectSettles(v: Node, j: NodeId)
    requires SettlesSoon(v)
    ensures SettlesSoon(HandleConnect(v, j).0)
  {
    var w := HandleConnect(v, j).0;
    assert forall t :: t in w.priv && t != System ==> t in v.priv && w.priv[t] == v.priv[t];
  }

  lemma NewSettles(v: Node, t: TokenId, props: Props)
    requires NodeOk(v) && SettlesSoon(v) && t.Monitor?
    ensures SettlesSoon(HandleNew(v, t, props).0)
  {
    hide AskFor, Put, Declare, SettlesSoon, NodeOk, View, EntryFlags;
    var (created, owned) := EntryFlags(v, t);
    var u := Declare(C(v), View(v, t), props, created, owned);
    DeclaredOpen(C(v), View(v, t), props, created, owned);
    OwnedIsCreated(v, t);
    AskOk(v);
    if View(v, t).pub.None? && View(v, t).priv.None? && !created {
      AskedAfter(C(v), System, View(v, System));
      AskedSettles(Put(v, t, u), AskFor(C(v), System, View(v, System)).0);
    } else {
      PutSettles(v, t, u);
      ListsNothing(Put(v, t, u), v.monitors + {t});
    }
  }

  lemma DeclaredOpen(c: Ctx, s: Slot, props: Props, created: bool, owned: bool)
    ensures Open(Declare(c, s, props, created, owned)) <==> Open(s) || (First(s) && !created)
  {
  }

  lemma OwnedIsCreated(v: Node, t: TokenId)
    ensures EntryFlags(v, t).1 ==> EntryFlags(v, t).0
  {
  }

  lemma AskedSettles(v: Node, s: Slot)
    requires s.pendReq
    ensures SettlesSoon(Put(v, System, s))
  {
  }

  lemma ListsNothing(v: Node, mons: set<TokenId>)
    requires SettlesSoon(v)
    ensures SettlesSoon(v.(monitors := mons))
  {
  }

  lemma AskedAfter(c: Ctx, t: TokenId, s: Slot)
    requires SlotOk(c, s)
    ensures AskFor(c, t, s).0.pendReq
  {
  }

  lemma LockSettles(v: Node, t: TokenId)
    requires NodeOk(v) && SettlesSoon(v)
    ensures SettlesSoon(LockRequested(v, t).0) && SettlesSoon(UnlockRequested(v, t).0)
  {
    hide SettlesSoon, Put, Latecomers;
    PutSettles(v, t, RequestLock(C(v), t, View(v, t)).0);
    PutSettles(v, t, RequestUnlock(C(v), t, View(v, t)).0);
  }

  lemma WriteSettles(v: Node, t: TokenId, props: Props)
    requires SettlesSoon(v)
    ensures SettlesSoon(v.(pub := v.pub[t := props]))
  {
  }

  lemma HandshakeSettles(v: Node)
    requires NodeOk(v) && SettlesSoon(v)
    ensures SettlesSoon(HandshakeIn(v).0)
  {
    var w := HandshakeIn(v).0;
    forall t | t in w.priv
      ensures t in v.priv && w.priv[t].created == v.priv[t].created
    {
    }
  }

  lemma RequestSettles(v: Node, t: TokenId, from: NodeId, num: U32)
    requires NodeOk(v) && from < v.n && SettlesSoon(v)
    ensures SettlesSoon(RequestTokenIn(v, t, from, num).0)
  {
    hide SettlesSoon, Put;
    PutSettles(v, t, GetRequest(C(v), t, View(v, t), from, num, Carried(v, t)).0);
  }

  lemma GiveSettles(v: Node, t: TokenId, d: TokenData)
    requires NodeOk(v) && (forall x: nat :: x in d.queue ==> x < v.n) && SettlesSoon(v)
    ensures SettlesSoon(GiveTokenIn(v, t, d).0)
  {
    hide SettlesSoon, Put, Release, AdoptAll, GetSystem;
    if t != System {
      PutSettles(v, t, GetGive(C(v), View(v, t), d));
    } else if v.started && Accepts(View(v, t)) {
      AllSettled(v, d);
    }
  }

  /** The system token settles every record. */
  lemma AllSettled(v: Node, d: TokenData)
    requires NodeOk(v) && (forall x: nat :: x in d.queue ==> x < v.n) && v.started && Accepts(View(v, System))
    ensures SettlesSoon(GiveTokenIn(v, System, d).0)
  {
    hide GetSystem, AdoptAll, Put, View, Adopt, NodeOk, Unsettled;
    var v1 := AdoptAll(v, d.monitors).0;
    var mons := d.monitors + Unsettled(v);
    ViewOk(v, System);
    var s := GetSystem(C(v), View(v, System), d, mons).0;
    forall t | t != System
      ensures !Open(View(Put(v1, System, s), t))
    {
      ViewAdoptAll(v, d.monitors, t);
      ViewPut(v1, System, s, t);
      ViewOk(v, t);
      SettledNow(C(v), t, View(v, t), t in d.monitors);
    }
    NoneOpen(Put(v1, System, s).(monitors := mons), Put(v1, System, s));
  }

  lemma SettledNow(c: Ctx, t: TokenId, s: Slot, b: bool)
    requires SlotOk(c, s)
    ensures !Open(Adopt(c, t, s, b).0)
  {
  }

  lemma NoneOpen(w: Node, v: Node)
    requires w.priv == v.priv && forall t :: t != System ==> !Open(View(v, t))
    ensures SettlesSoon(w)
  {
    forall t | t in w.priv && t != System
      ensures w.priv[t].created
    {
      assert !Open(View(v, t));
    }
  }

  ghost predicate AllSettleSoon(s: State) {
    forall i: nat :: i < |s.nodes| ==> SettlesSoon(s.nodes[i])
  }

  lemma StepSettles(s: State, a: Act)
    requires Shape(s) && Enabled(s, a) && AllSettleSoon(s)
    ensures AllSettleSoon(Step(s, a))
  {
    hide SettlesSoon, React;
    ReactSettles(s, a);
  }

  /** In every state of every run. */
  lemma {:induction false} RunSettles(informed: bool, ss: seq<State>, acts: seq<Act>, k: nat)
    requires Run(informed, ss, acts) && k < |ss|
    ensures AllSettleSoon(ss[k])
  {
    hide Run, Step, Bounded, Informed, SettlesSoon;
    RunLength(informed, ss, acts);
    if k == 0 {
      RunStart(informed, ss, acts);
      NothingToSettle(ss[0].n, ss[0].bound);
    } else {
      var last: nat := k - 1;
      RunSettles(informed, ss, acts, last);
      RunStep(informed, ss, acts, last);
      StepSettles(ss[last], acts[last]);
    }
  }

  lemma NothingToSettle(n: nat, bound: TokenId -> set<Str>)
    ensures AllSettleSoon(Init(n, bound))
  {
  }

  // ---------------------------------------------------------------- everybody gets in

  /** Nobody is ever inside the system token. */
  lemma NobodyInSystem(informed: bool, ss: seq<State>, acts: seq<Act>, k: nat)
    requires Run(informed, ss, acts) && k < |ss|
    ensures Shape(ss[k]) && forall h: nat :: h < ss[k].n ==> !Locked(ss[k], h, System)
  {
    hide Run, Shape, Safe, SystemInv;
    RunSafe(informed, ss, acts, k);
    RunShape(informed, ss, acts, k);
    SafeFacts(ss[k]);
    ShapeSize(ss[k]);
    forall h: nat | h < ss[k].n
      ensures !Locked(ss[k], h, System)
    {
      SlotIs(ss[k], System, h);
      SystemOpen(Proj(ss[k], System), h);
    }
  }

  lemma SystemOpen(k: World, h: NodeId)
    requires SystemInv(k) && h < k.n
    ensures h < |k.slots| && (k.slots[h].priv.Some? ==> !k.slots[h].priv.value.locked)
  {
    hide Inv;
    InvShape(k);
    assert SystemSlot(k.slots[h], k.up[h], k.minted);
  }

  /** No record is left to be settled where the system token has not been asked for. */
  lemma SettledWhen(v: Node, t: TokenId)
    requires SettlesSoon(v) && System !in v.pendingRequests && t != System && t in v.priv
    ensures v.priv[t].created
  {
  }

  /** Once nothing is on its way and nobody is inside, nobody at a node that is up waits for a monitor that exists: not
      unless a node came up overlooking who waited there, or the run took one of the three steps that lose the token, lose
      a request or strand an entry. */
  lemma QuietMeansGranted(informed: bool, ss: seq<State>, acts: seq<Act>, k: nat, t: TokenId, i: NodeId)
    requires Run(informed, ss, acts) && k < |ss| && t.Monitor? && Shape(ss[k]) && i < ss[k].n && Minted(ss[k], t)
    requires ss[k].net == {} && ss[k].nodes[i].startedCluster
    requires forall h: nat :: h < ss[k].n ==> !Locked(ss[k], h, t)
    requires forall j: nat :: j < k ==> !ClearsIn(ss, acts, j, t) && !CarelessIn(ss, acts, j, t) && !MintsWhereAskedIn(ss, acts, j, t)
    requires forall j: nat :: j < k ==> !OverlooksIn(ss, acts, j, t)
    ensures t !in ss[k].nodes[i].pendingGrants
  {
    hide Run, ClearsIn, CarelessIn, MintsWhereAskedIn, OverlooksIn, Shape, Minted, Locked, SettlesSoon;
    var s := ss[k];
    ShapeSize(s);
    QuietMeansServedAlways(informed, ss, acts, k, t, i);
    WaitingExactly(informed, ss, acts, k, t);
    assert AttendedIn(ss, k, t);
    RunSettles(informed, ss, acts, k);
    NobodyInSystem(informed, ss, acts, k);
    QuietMeansServed(informed, ss, acts, k, System, i);
    if t in s.nodes[i].pendingGrants {
      SettledWhen(s.nodes[i], t);
    }
  }

  // ---------------------------------------------------------------- every lock is granted

  /** Whoever waits goes on waiting until it is inside. */
  lemma EffectGrants(k: World, e: Ev)
    requires AllAttended(k) && Possible(k, e) && At(e) < k.n && k.slots[At(e)].pendGrant
    ensures var s := Effect(k, e).0; s.pendGrant || (s.priv.Some? && s.priv.value.locked)
  {
    hide Release, Latecomers;
    assert Attended(k.slots[At(e)], k.up[At(e)]);
  }

  lemma StepGrants(s: State, a: Act, t: TokenId, i: NodeId)
    requires WReady(s, t) && Enabled(s, a) && WaitsAttended(s, t) && i < s.n == |s.nodes| && t in s.nodes[i].pendingGrants
    ensures var s' := Step(s, a); i < |s'.nodes| && (t in s'.nodes[i].pendingGrants || Locked(s', i, t))
  {
    hide SystemReady, WInv, Mail, Step, Single, Effect, WaitsAttended, AllAttended, Possible, Enabled, Shape, WellFormed;
    ReadySmall(s, t);
    WSingle(Proj(s, t));
    SingleKept(s, a, t);
    StepShape(s, a);
    ShapeSize(Step(s, a));
    StepIs(s, a, t);
    Formed(Proj(s, t));
    Formed(Proj(Step(s, a), t));
    AttendedIs(s, t);
    EventThere(s, a, t);
    SlotIs(s, t, i);
    SlotIs(Step(s, a), t, i);
    SlotLocked(Step(s, a), t, i);
    var k, e := Proj(s, t), EventOf(s, a, t);
    AfterParts(k, e, s.clock);
    if At(e) == i {
      EffectGrants(k, e);
    }
  }

  lemma SlotLocked(s: State, t: TokenId, i: NodeId)
    requires i < |s.nodes|
    ensures var u := View(s.nodes[i], t); Locked(s, i, t) <==> u.priv.Some? && u.priv.value.locked
  {
  }

  /** A lock is granted at once, or whoever asked for it waits: if the node has declared the monitor and is not inside. */
  lemma LockIsNoted(s: State, i: NodeId, t: TokenId)
    requires Shape(s) && Enabled(s, LockAt(i, t)) && t in s.nodes[i].priv && t in s.nodes[i].pub && !s.nodes[i].priv[t].locked
    ensures var v := s.nodes[i];
      var w := Step(s, LockAt(i, t)).nodes[i];
      && t in w.priv && (w.priv[t].locked <==> v.startedCluster && v.priv[t].owned)
      && (t in w.pendingGrants <==> !w.priv[t].locked)
      && (v.startedCluster && !w.priv[t].locked ==> t in w.pendingRequests)
  {
  }

  /** Whoever waits in one state is inside in a later one, or waits still. */
  lemma {:induction false} WaitsOn(informed: bool, ss: seq<State>, acts: seq<Act>, j: nat, k: nat, t: TokenId, i: NodeId)
    requires Run(informed, ss, acts) && j <= k < |ss| && t.Monitor? && i < |ss[j].nodes| && t in ss[j].nodes[i].pendingGrants
    requires forall m: nat :: m < k ==> !OverlooksIn(ss, acts, m, t)
    ensures |ss[k].nodes| == |ss[j].nodes|
    ensures t in ss[k].nodes[i].pendingGrants || exists m: nat :: j < m <= k && i < |ss[m].nodes| && Locked(ss[m], i, t)
  {
    hide Run, WReady, Step, Bounded, Informed, Shape, Enabled, WaitsAttended, OverlooksWait, Locked;
    RunShape(informed, ss, acts, k);
    RunShape(informed, ss, acts, j);
    ShapeSize(ss[k]);
    ShapeSize(ss[j]);
    if j < k {
      var last: nat := k - 1;
      RunLength(informed, ss, acts);
      WaitsOn(informed, ss, acts, j, last, t, i);
      if t in ss[last].nodes[i].pendingGrants {
        RunShape(informed, ss, acts, last);
        ShapeSize(ss[last]);
        WaitingExactly(informed, ss, acts, last, t);
        assert AttendedIn(ss, last, t);
        RunWReady(informed, ss, acts, last, t);
        RunStep(informed, ss, acts, last);
        StepGrants(ss[last], acts[last], t, i);
        assert Locked(ss[k], i, t) ==> exists m: nat :: j < m <= k && i < |ss[m].nodes| && Locked(ss[m], i, t);
      }
    }
  }

  /** A lock handled in a run has been granted by the time the cluster is quiet: the node has been inside since. */
  lemma EveryLockIsGranted(informed: bool, ss: seq<State>, acts: seq<Act>, j: nat, k: nat, t: TokenId, i: NodeId)
    requires Run(informed, ss, acts) && j < k < |ss| && acts[j] == LockAt(i, t) && Shape(ss[j]) && Enabled(ss[j], acts[j])
    requires t in ss[j].nodes[i].priv && t in ss[j].nodes[i].pub && !ss[j].nodes[i].priv[t].locked
    requires Shape(ss[k]) && Minted(ss[k], t) && ss[k].net == {} && i < ss[k].n && ss[k].nodes[i].startedCluster
    requires forall h: nat :: h < ss[k].n ==> !Locked(ss[k], h, t)
    requires forall m: nat :: m < k ==> !ClearsIn(ss, acts, m, t) && !CarelessIn(ss, acts, m, t) && !MintsWhereAskedIn(ss, acts, m, t)
    requires forall m: nat :: m < k ==> !OverlooksIn(ss, acts, m, t)
    ensures exists m: nat :: j < m <= k && i < |ss[m].nodes| && Locked(ss[m], i, t)
  {
    hide Run, ClearsIn, CarelessIn, MintsWhereAskedIn, OverlooksIn, Shape, Minted, Step, Bounded, Informed;
    RunLength(informed, ss, acts);
    RunStep(informed, ss, acts, j);
    LockIsNoted(ss[j], i, t);
    ThereOk(ss[j], acts[j]);
    SameSize(informed, ss, acts, j, j + 1);
    SameSize(informed, ss, acts, j, k);
    if Locked(ss[j + 1], i, t) {
      assert j < j + 1 <= k;
    } else {
      WaitsOn(informed, ss, acts, j + 1, k, t, i);
      QuietMeansGranted(informed, ss, acts, k, t, i);
    }
  }

  lemma SameSize(informed: bool, ss: seq<State>, acts: seq<Act>, j: nat, k: nat)
    requires Run(informed, ss, acts) && j < |ss| && k < |ss|
    ensures |ss[j].nodes| == |ss[k].nodes| == ss[k].n == ss[j].n
  {
    hide Run, Shape;
    RunShape(informed, ss, acts, j);
    RunShape(informed, ss, acts, k);
    ShapeSize(ss[j]);
    ShapeSize(ss[k]);
  }
}
