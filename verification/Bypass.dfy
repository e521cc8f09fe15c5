/** Bounded bypass: whoever is queued comes nearer with every hand-off, in every run, as long as the token is not lost. */
module Bypass {
  import opened Basics
  import opened Properties
  import opened Token
  import opened Slot
  import opened World
  import opened UserEvents
  import opened Refinement
  import opened Events
  import opened Monitors
  import opened Brackets
  import opened Attention
  import opened Values
  import opened Node
  import opened Cluster
  import opened Tokens
  import opened Users
  import opened Exclusion
  import opened Runs
  import opened Theorems
  import opened Always
  import opened Conservation
  import SK = SuzukiKasami

  // ---------------------------------------------------------------- one event

  /** What becomes of a token that its node owns: it stays, with its queue longer at most, or it goes to the first in it. */
  ghost predicate PassesOn(q: seq<NodeId>, s: Slot, outs: set<Out>) {
    (Owner(s) && q <= s.priv.value.queue) || exists o :: o in outs && o.msg.Give? && q <= [o.dst] + o.msg.data.queue
  }

  lemma UnlockPasses(c: Ctx, t: TokenId, s: Slot)
    requires SlotOk(c, s) && Owner(s)
    ensures PassesOn(s.priv.value.queue, RequestUnlock(c, t, s).0, RequestUnlock(c, t, s).1)
  {
    hide Release;
    if s.priv.value.locked {
      var p := s.priv.value.(locked := false);
      var r := Release(p, c.id);
      ReleaseFrame(p, c.id, c.n);
      if r.queue != [] {
        assert r.queue == [r.queue[0]] + r.queue[1..];
        assert Out(r.queue[0], Give(t, TokenData(r.ln, r.queue[1..], {}, PropsOf(s.pub)))) in RequestUnlock(c, t, s).1;
      }
    }
  }

  lemma RequestPasses(c: Ctx, t: TokenId, s: Slot, from: NodeId, num: U32)
    requires SlotOk(c, s) && from < c.n && Owner(s) && (!s.priv.value.locked ==> s.priv.value.queue == [])
    ensures PassesOn(s.priv.value.queue, GetRequest(c, t, s, from, num, {}).0, GetRequest(c, t, s, from, num, {}).1)
  {
    var (s', outs) := GetRequest(c, t, s, from, num, {});
    if outs != {} {
      var o :| o in outs;
      assert o.msg.Give?;
    }
  }

  lemma LockPasses(c: Ctx, t: TokenId, s: Slot)
    requires SlotOk(c, s) && Owner(s)
    ensures PassesOn(s.priv.value.queue, RequestLock(c, t, s).0, RequestLock(c, t, s).1)
  {
  }

  lemma DeclarePasses(c: Ctx, s: Slot, props: Props, created: bool, owned: bool)
    requires Owner(s)
    ensures PassesOn(s.priv.value.queue, Declare(c, s, props, created, owned), {})
  {
  }

  lemma UpPasses(c: Ctx, t: TokenId, s: Slot)
    requires SlotOk(c, s) && Owner(s)
    ensures PassesOn(s.priv.value.queue, ComeUp(c, t, s).0, ComeUp(c, t, s).1)
  {
  }

  lemma AdoptPasses(c: Ctx, t: TokenId, s: Slot, exists_: bool)
    requires SlotOk(c, s) && Owner(s) && !(exists_ && Open(s))
    ensures PassesOn(s.priv.value.queue, Adopt(c, t, s, exists_).0, Adopt(c, t, s, exists_).1)
  {
  }

  lemma StaysPut(s: Slot, outs: set<Out>)
    requires Owner(s)
    ensures PassesOn(s.priv.value.queue, s, outs)
  {
  }

  lemma EffectPasses(k: World, e: Ev)
    requires WInv(k) && Possible(k, e) && At(e) < k.n && Owner(k.slots[At(e)]) && !ClearsAt(k, e) && !e.Receives?
    ensures PassesOn(k.slots[At(e)].priv.value.queue, Effect(k, e).0, Effect(k, e).1)
  {
    hide WInv, PassesOn, RequestLock, RequestUnlock, GetRequest, GetGive, Adopt, ComeUp, Declare;
    var i := At(e);
    var u := k.slots[i];
    SlotInRange(k, i);
    match e
    case Nothing => StaysPut(u, {});
    case Locks(_) => LockPasses(k.C(i), k.t, u);
    case Unlocks(_) => UnlockPasses(k.C(i), k.t, u);
    case Writes(_, props) => WritePasses(u, props);
    case Declares(_, props, created, owned) => DeclarePasses(k.C(i), u, props, created, owned);
    case Hears(p) => {
      if !u.priv.value.locked {
        IdleFits(k, i);
      }
      RequestPasses(k.C(i), k.t, u, p.src, p.msg.num);
    }
    case Settles(_) => AdoptPasses(k.C(i), k.t, u, k.minted);
    case Rises(_) => UpPasses(k.C(i).(up := true), k.t, u);
  }

  lemma WritePasses(s: Slot, props: Props)
    requires Owner(s)
    ensures PassesOn(s.priv.value.queue, s.(pub := Some(props)), {})
  {
  }

  lemma SlotInRange(k: World, i: NodeId)
    requires WInv(k) && i < k.n
    ensures WellFormed(k) && AtMostOne(k) && Single(k) && SlotOk(k.C(i), k.slots[i])
  {
  }

  /** The token is at node h. */
  lemma OnwardFrom(k: World, e: Ev, stamp: nat, h: NodeId)
    requires WInv(k) && Possible(k, e) && Single(After(k, e, stamp)) && OwnedAt(k, h) && !ClearsAt(k, e)
    ensures Onward(Place(k), Place(After(k, e, stamp)))
  {
    hide WInv, Place, AtMostOne, WellFormed, Possible, Effect, ClearsAt, After, Creates, PassesOn;
    var k' := After(k, e, stamp);
    AtRange(k, h);
    SlotInRange(k, h);
    Formed(k');
    AfterParts(k, e, stamp);
    SentAfter(k, e, stamp);
    PlaceAt(k, h);
    OnlyOwner(k, h);
    if At(e) != h {
      PlaceAt(k', h);
    } else {
      NoneComing(k, e);
      EffectPasses(k, e);
      PassedPlace(k', k.slots[h].priv.value.queue, h, Effect(k, e).0, Effect(k, e).1, stamp);
    }
  }

  lemma NoneComing(k: World, e: Ev)
    requires Possible(k, e) && forall p :: p in k.net ==> !p.msg.Give?
    ensures !e.Receives?
  {
  }

  lemma AtRange(k: World, h: NodeId)
    requires WInv(k) && OwnedAt(k, h)
    ensures h < k.n
  {
  }

  /** What an event sends is under way afterwards. */
  lemma SentAfter(k: World, e: Ev, stamp: nat)
    requires Possible(k, e)
    ensures Stamped(At(e), stamp, Effect(k, e).1) <= After(k, e, stamp).net
    ensures forall p :: p in k.net && p !in Uses(e) ==> p in After(k, e, stamp).net
  {
    hide Effect;
  }

  lemma PassedPlace(k': World, q: seq<NodeId>, h: NodeId, s: Slot, outs: set<Out>, stamp: nat)
    requires WellFormed(k') && AtMostOne(k') && h < |k'.slots| && k'.slots[h] == s && Stamped(h, stamp, outs) <= k'.net && PassesOn(q, s, outs)
    ensures var p' := Place(k'); (p'.At? && p'.h == h && q <= p'.q) || (p'.To? && q <= [p'.h] + p'.q)
  {
    hide Place, AtMostOne, WellFormed;
    if Owner(s) && q <= s.priv.value.queue {
      PlaceAt(k', h);
    } else {
      var o :| o in outs && o.msg.Give? && q <= [o.dst] + o.msg.data.queue;
      var g := Packet(h, o.dst, stamp, o.msg);
      assert g in Stamped(h, stamp, outs);
      PlaceTo(k', g);
    }
  }

  /** The token is under way in packet p. */
  lemma OnwardFlight(k: World, e: Ev, stamp: nat, p: Packet)
    requires WInv(k) && Possible(k, e) && Single(After(k, e, stamp)) && Flying(k, p)
    requires e.Receives? ==> Accepts(k.slots[e.p.dst])
    ensures Onward(Place(k), Place(After(k, e, stamp)))
  {
    hide WInv, Place, AtMostOne, WellFormed, Possible, Effect, After, Creates;
    var k' := After(k, e, stamp);
    FlightRange(k, p);
    Formed(k');
    AfterParts(k, e, stamp);
    SentAfter(k, e, stamp);
    PlaceTo(k, p);
    if e.Receives? {
      OneFlight(k, p, e.p);
      TakenWith(k, e.p);
      PlaceAt(k', p.dst);
    } else {
      UsesRequests(k, e);
      PlaceTo(k', p);
    }
  }

  lemma UsesRequests(k: World, e: Ev)
    requires Possible(k, e) && !e.Receives?
    ensures forall p :: p in Uses(e) ==> !p.msg.Give?
  {
  }

  lemma FlightRange(k: World, p: Packet)
    requires WInv(k) && Flying(k, p)
    ensures WellFormed(k) && AtMostOne(k) && p.dst < k.n
  {
  }

  lemma OneFlight(k: World, p: Packet, q: Packet)
    requires WInv(k) && Flying(k, p) && Possible(k, Receives(q))
    ensures p == q
  {
  }

  lemma TakenWith(k: World, p: Packet)
    requires WInv(k) && Possible(k, Receives(p)) && Accepts(k.slots[p.dst])
    ensures Owner(Effect(k, Receives(p)).0) && Effect(k, Receives(p)).0.priv.value.queue == p.msg.data.queue
  {
  }

  /** An event clears the owned flag: nobody has the token any more. */
  lemma OnwardNot(k: World, e: Ev, stamp: nat)
    requires WInv(k) && Possible(k, e) && Single(After(k, e, stamp)) && ClearsAt(k, e)
    ensures !Onward(Place(k), Place(After(k, e, stamp)))
  {
    hide WInv, Place, AtMostOne, WellFormed, Possible, After, Adopt;
    var k' := After(k, e, stamp);
    var i := At(e);
    SettleRange(k, e);
    SlotInRange(k, i);
    Formed(k');
    AfterParts(k, e, stamp);
    PlaceAt(k, i);
    ClearedThere(k.C(i), k.t, k.slots[i]);
    OnlyOwner(k, i);
    forall x: nat
      ensures !OwnedAt(k', x)
    {
      assert OwnedAt(k', x) ==> x != i && Holds(k.slots[x]);
    }
    forall p
      ensures !Flying(k', p)
    {
      if p in Stamped(i, stamp, Effect(k, e).1) {
        OutIn(i, stamp, Effect(k, e).1, p);
      }
    }
    PlaceNowhere(k');
  }

  lemma SettleRange(k: World, e: Ev)
    requires WInv(k) && Possible(k, e)
    ensures At(e) < k.n
  {
  }

  lemma ClearedThere(c: Ctx, t: TokenId, s: Slot)
    requires SlotOk(c, s) && Open(s) && Owner(s)
    ensures !Owner(Adopt(c, t, s, true).0) && forall o :: o in Adopt(c, t, s, true).1 ==> !o.msg.Give?
  {
  }

  lemma OnlyOwner(k: World, i: NodeId)
    requires WInv(k) && i < k.n && Owner(k.slots[i])
    ensures forall x: nat :: x < k.n && x != i ==> !Holds(k.slots[x])
    ensures forall p :: p in k.net ==> !p.msg.Give?
  {
    assert Holds(k.slots[i]);
  }

  /** An event moves a token onwards exactly when it does not clear the owned flag. */
  lemma OnwardAfter(k: World, e: Ev, stamp: nat)
    requires WInv(k) && Possible(k, e) && Single(After(k, e, stamp)) && !Place(k).Nowhere?
    requires e.Receives? ==> Accepts(k.slots[e.p.dst])
    ensures Onward(Place(k), Place(After(k, e, stamp))) <==> !ClearsAt(k, e)
  {
    hide WInv, Place, AtMostOne, Possible, After, ClearsAt, Onward;
    SettleRange(k, e);
    SlotInRange(k, At(e));
    if ClearsAt(k, e) {
      OnwardNot(k, e, stamp);
    } else if Place(k).At? {
      AtMeans(k);
      OnwardFrom(k, e, stamp, Place(k).h);
    } else {
      var p := ToMeans(k);
      OnwardFlight(k, e, stamp, p);
    }
  }

  // ---------------------------------------------------------------- runs

  ghost function PlaceIn(s: State, t: TokenId): SK.Place {
    Place(Proj(s, t))
  }

  /** The token changes hands when it is put into a packet. */
  ghost predicate HandOff(p: SK.Place, p': SK.Place) {
    p'.To? && p' != p
  }

  ghost function HandOffs(ss: seq<State>, j: nat, k: nat, t: TokenId): nat
    requires j <= k < |ss|
  {
    if j == k then 0 else HandOffs(ss, j, k - 1, t) + if HandOff(PlaceIn(ss[k - 1], t), PlaceIn(ss[k], t)) then 1 else 0
  }

  ghost predicate QueuedAt(s: State, t: TokenId, i: NodeId, d: nat) {
    var p := PlaceIn(s, t);
    !p.Nowhere? && d < |p.q| && p.q[d] == i
  }

  /** A step moves a user monitor's token onwards exactly when it does not clear the owned flag. */
  lemma StepOnward(s: State, a: Act, t: TokenId)
    requires WReady(s, t) && Enabled(s, a) && !PlaceIn(s, t).Nowhere?
    ensures Onward(PlaceIn(s, t), PlaceIn(Step(s, a), t)) <==> !Clears(s, a, t)
  {
    hide SystemReady, WInv, Mail, Step, Single, After, Clears, ClearsAt, Onward, Place, Shape, Enabled, Possible;
    ReadySmall(s, t);
    WSingle(Proj(s, t));
    SingleKept(s, a, t);
    StepIs(s, a, t);
    WAfter(Proj(s, t), EventOf(s, a, t), s.clock);
    OnwardAfter(Proj(s, t), EventOf(s, a, t), s.clock);
    ClearsIs(s, a, t);
  }

  /** Along any run: the system token, and under H every token, moves onwards in its queue with every step. */
  lemma RunOnward(informed: bool, ss: seq<State>, acts: seq<Act>, k: nat, t: TokenId)
    requires Run(informed, ss, acts) && k < |acts| && |ss| == |acts| + 1 && (informed || t == System)
    ensures Onward(PlaceIn(ss[k], t), PlaceIn(ss[k + 1], t))
  {
    hide Run, Safe, Sound, Place, SystemInv, UserInv, Shape, Bounded, Step, Enabled, Informed;
    RunStep(informed, ss, acts, k);
    if t == System {
      RunSafe(informed, ss, acts, k);
      RunShape(informed, ss, acts, k);
      SafeReady(ss[k]);
      SystemKept(ss[k], acts[k]);
    } else {
      RunSound(ss, acts, k);
      SoundKept(ss[k], acts[k]);
      assert UserMoves(ss[k], ss[k + 1], t);
    }
  }

  /** Without H too, exactly up to the step that loses it. */
  lemma RunOnwardExactly(informed: bool, ss: seq<State>, acts: seq<Act>, k: nat, t: TokenId)
    requires Run(informed, ss, acts) && k < |acts| && |ss| == |acts| + 1 && t.Monitor? && !PlaceIn(ss[k], t).Nowhere?
    ensures Onward(PlaceIn(ss[k], t), PlaceIn(ss[k + 1], t)) <==> !ClearsIn(ss, acts, k, t)
  {
    hide Run, WReady, Onward, Place, Shape, Bounded, Step, Enabled, Informed, Clears;
    RunWReady(informed, ss, acts, k, t);
    RunStep(informed, ss, acts, k);
    StepOnward(ss[k], acts[k], t);
  }

  /** While i waits and the token is not lost, each hand-off brings i one place nearer the head of the queue, and nothing
      moves it back. */
  lemma {:induction false} BoundedBypass(informed: bool, ss: seq<State>, acts: seq<Act>, j: nat, k: nat, t: TokenId, i: NodeId, d: nat)
    requires Run(informed, ss, acts) && j <= k < |ss| && QueuedAt(ss[j], t, i, d)
    requires informed || t == System || forall m: nat :: j <= m < k ==> !ClearsIn(ss, acts, m, t)
    requires forall m: nat :: j < m <= k ==> !(PlaceIn(ss[m], t).To? && PlaceIn(ss[m], t).h == i)
    ensures HandOffs(ss, j, k, t) <= d && QueuedAt(ss[k], t, i, d - HandOffs(ss, j, k, t))
  {
    hide Run, Place, Proj, PlaceIn, Onward, ClearsIn;
    if j < k {
      var last: nat := k - 1;
      BoundedBypass(informed, ss, acts, j, last, t, i, d);
      RunLength(informed, ss, acts);
      if informed || t == System {
        RunOnward(informed, ss, acts, last, t);
      } else {
        RunOnwardExactly(informed, ss, acts, last, t);
      }
      QueuedMoves(PlaceIn(ss[last], t), PlaceIn(ss[k], t), i, d - HandOffs(ss, j, last, t));
    }
  }

  lemma QueuedMoves(p: SK.Place, p': SK.Place, i: NodeId, d: nat)
    requires Onward(p, p') && !p.Nowhere? && d < |p.q| && p.q[d] == i && !(p'.To? && p'.h == i)
    ensures !p'.Nowhere?
    ensures if HandOff(p, p') then 0 < d && d - 1 < |p'.q| && p'.q[d - 1] == i else d < |p'.q| && p'.q[d] == i
  {
    if HandOff(p, p') {
      var line := [p'.h] + p'.q;
      assert p.q == line[..|p.q|];
      assert line[d] == i;
    }
  }

  /** At most n - 2 nodes are ahead of anyone in the queue, in every run. */
  lemma QueueIsShort(informed: bool, ss: seq<State>, acts: seq<Act>, k: nat, t: TokenId, i: NodeId, d: nat)
    requires Run(informed, ss, acts) && k < |ss| && QueuedAt(ss[k], t, i, d)
    ensures d + 2 <= ss[k].n
  {
    hide Run, Place, TokenAt, TokenTo, Orderly, Single, Shape;
    RunShape(informed, ss, acts, k);
    RunSingle(informed, ss, acts, k, t);
    PlaceIsSomewhere(ss[k], t);
    var p := PlaceIn(ss[k], t);
    OrderlyAlways(informed, ss, acts, k, t, p.h, p.ln, p.q);
    OrderlyShort(ss[k], t, p.h, p.ln, p.q);
  }

  lemma OrderlyShort(s: State, t: TokenId, h: NodeId, ln: seq<nat>, q: seq<NodeId>)
    requires Shape(s) && Orderly(s, t, h, ln, q)
    ensures |q| <= s.n - 1
  {
  }

  lemma PlaceIsSomewhere(s: State, t: TokenId)
    requires Shape(s) && Single(Proj(s, t)) && !PlaceIn(s, t).Nowhere?
    ensures var p := PlaceIn(s, t); TokenAt(s, t, p.h, p.ln, p.q) || TokenTo(s, t, p.h, p.ln, p.q)
  {
    hide Place, AtMostOne;
    var k := Proj(s, t);
    if Place(k).At? {
      AtMeans(k);
      assert k.slots[Place(k).h] == View(s.nodes[Place(k).h], t);
    } else {
      var g := ToMeans(k);
      assert g in Gives(s, t);
    }
  }
}
