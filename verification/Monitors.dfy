/** The system token and the user monitors: the extra facts that hold of their slots under H. */
module Monitors {
  import opened Basics
  import opened Properties
  import opened Token
  import opened Slot
  import opened World
  import opened Refinement
  import opened Events

  // ---------------------------------------------------------------- the system token

  ghost predicate SystemSlot(s: Slot, up: bool, minted: bool) {
    && !s.pendGrant && s.pub.None?
    && (s.priv.Some? ==> s.priv.value.created && !s.priv.value.locked)
    && (up ==> minted && s.priv.Some?)
  }

  ghost predicate SystemInv(k: World) {
    Inv(k) && k.t == System && forall i: nat :: i < k.n ==> SystemSlot(k.slots[i], k.up[i], k.minted)
  }

  /** The system token arrives: it is released at once, and goes on to whoever waits. */
  lemma OnSystem(k: World, p: Packet, mons: set<TokenId>, stamp: nat)
    requires SystemInv(k) && Small(k) && p in k.net && p.msg.Give?
    ensures Accepts(k.slots[p.dst])
    ensures var (s, outs) := GetSystem(k.C(p.dst), k.slots[p.dst], p.msg.data, mons);
      var k' := Apply(k, p.dst, s, {p}, stamp, outs);
      SystemInv(k') && Onward(Place(k), Place(k'))
  {
    hide Inv, Place, Release, AtMostOne;
    InvShape(k);
    var i := p.dst;
    var c := k.C(i);
    SystemTaken(k, p, stamp);
    var s0 := Taken(c, k.slots[i], p.msg.data);
    var s1 := s0.(priv := Some(s0.priv.value.(locked := true)));
    var k1 := Apply(k, i, s1, {p}, stamp, {});
    PassRefines(k1, i, mons, stamp);
    var (s, outs) := ReleaseAndPass(c, System, s0, mons);
    assert s0 == s1.(priv := Some(s1.priv.value.(locked := false)));
    Twice(k, i, s1, s, {p}, stamp, outs);
    PassNotToSelf(k1, i);
    SystemSlotPasses(c, s0, mons, k.up[i], k.minted);
  }

  lemma SystemSlotPasses(c: Ctx, s: Slot, mons: set<TokenId>, up: bool, minted: bool)
    requires SlotOk(c, s) && s.priv.Some? && SystemSlot(s, up, minted)
    ensures SystemSlot(ReleaseAndPass(c, System, s, mons).0, up, minted)
  {
  }

  /** Half way through: the token is in, and the node counts as inside its critical section. */
  lemma SystemTaken(k: World, p: Packet, stamp: nat)
    requires SystemInv(k) && Small(k) && p in k.net && p.msg.Give?
    ensures Accepts(k.slots[p.dst])
    ensures var s0 := Taken(k.C(p.dst), k.slots[p.dst], p.msg.data);
      var k1 := Apply(k, p.dst, s0.(priv := Some(s0.priv.value.(locked := true))), {p}, stamp, {});
      && Inv(k1) && Small(k1) && Place(k).To? && Place(k).h == p.dst
      && Place(k1) == SK.At(p.dst, Place(k).ln, Place(k).q, true)
  {
    hide SK.Inv;
    hide AtMostOne;
    Welcome(k, p);
    var s0 := Taken(k.C(p.dst), k.slots[p.dst], p.msg.data);
    TakeRefines(k, p, s0.(priv := Some(s0.priv.value.(locked := true))), stamp);
  }

  /** A releasing owner never sends the token to itself. */
  lemma PassNotToSelf(k: World, i: NodeId)
    requires Inv(k) && Small(k) && i < k.n && Owner(k.slots[i])
    ensures i !in Release(k.slots[i].priv.value, i).queue
    ensures Place(k).At? && Place(k).q <= Release(k.slots[i].priv.value, i).queue
  {
    ReleaseIsReleased(k, i);
    var r := Release(k.slots[i].priv.value, i);
    SK.ReleasedAccounts(Abs(k), r.ln, r.queue);
  }

  lemma OnSystemRequest(k: World, p: Packet, mons: set<TokenId>, stamp: nat)
    requires SystemInv(k) && Small(k) && p in k.net && p.msg.Request?
    ensures var (s, outs) := GetRequest(k.C(p.dst), k.t, k.slots[p.dst], p.src, p.msg.num, mons);
      var k' := Apply(k, p.dst, s, {p}, stamp, outs);
      SystemInv(k') && Onward(Place(k), Place(k'))
  {
    hide SK.Inv;
    hide AtMostOne;
    OnRequest(k, p, mons, stamp);
  }

  lemma OnSystemAsk(k: World, i: NodeId, stamp: nat)
    requires SystemInv(k) && Small(k) && i < k.n && !Owner(k.slots[i])
    ensures var (s, outs) := AskFor(k.C(i), k.t, k.slots[i]);
      var k' := Apply(k, i, s, {}, stamp, outs);
      SystemInv(k') && Place(k') == Place(k)
  {
    hide SK.Inv;
    hide AtMostOne;
    OnAsk(k, i, stamp);
  }

  lemma OnSystemUp(k: World, i: NodeId, stamp: nat)
    requires SystemInv(k) && Small(k) && i < k.n && !k.up[i]
    requires k.minted && k.slots[i].priv.Some?
    ensures var (s, outs) := ComeUp(k.C(i).(up := true), k.t, k.slots[i]);
      var k' := Apply(k.(up := k.up[i := true]), i, s, {}, stamp, outs);
      SystemInv(k') && Onward(Place(k), Place(k'))
  {
    hide SK.Inv;
    hide AtMostOne;
    OnUp(k, i, stamp);
  }

  /** A node starts: its system token record appears, owned at node 0 only. */
  lemma OnSystemStart(k: World, i: NodeId, stamp: nat)
    requires SystemInv(k) && i < k.n && k.slots[i].priv.None? && !k.up[i]
    requires i == 0 ==> !k.minted && !k.slots[i].pendReq
    ensures var s := k.slots[i].(priv := Some(NewPriv(k.n, true, i == 0)));
      var k' := Apply(k, i, s, {}, stamp, {}).(minted := k.minted || i == 0);
      SystemInv(k') && Onward(Place(k), Place(k'))
  {
    hide SK.Inv;
    hide AtMostOne;
    var s := k.slots[i].(priv := Some(NewPriv(k.n, true, i == 0)));
    assert Row(s, k.n) == Row(k.slots[i], k.n);
    if i == 0 {
      MintRefines(k, i, s, stamp);
    } else {
      Cosmetic(k, i, s, stamp);
      OnwardSame(k);
      assert Apply(k, i, s, {}, stamp, {}).(minted := k.minted) == Apply(k, i, s, {}, stamp, {});
    }
  }

  // ---------------------------------------------------------------- user monitors

  ghost predicate Bound(p: Option<Props>, keys: set<Str>) {
    p.Some? && p.value.Keys == keys
  }

  ghost predicate UserSlot(s: Slot, n: nat, up: bool, minted: bool, keys: set<Str>) {
    && (s.priv.None? ==> !s.pendGrant && !s.pendReq)
    && (s.priv.Some? ==>
          var p := s.priv.value;
          && (p.created ==> minted)
          && (!p.created ==> p.ln == seq(n, _ => 0) && p.queue == [] && !p.owned && !s.pendGrant && s.pub.Some?))
    && (s.pendReq ==> s.pendGrant && up)
    && (s.pendGrant ==> s.pub.Some?)
    && (s.pub.Some? ==> s.pub.value.Keys == keys)
    && (Owner(s) ==> s.pub.Some?)
  }

  ghost predicate UserInv(k: World, keys: set<Str>) {
    && Inv(k) && k.t.Monitor?
    && (forall i: nat :: i < k.n ==> UserSlot(k.slots[i], k.n, k.up[i], k.minted, keys))
    && (forall p :: p in k.net && p.msg.Give? ==> p.msg.data.props.Keys == keys)
  }

  ghost predicate UserStep(k: World, k': World, keys: set<Str>) {
    UserInv(k', keys) && Onward(Place(k), Place(k'))
  }

  // ---------------------------------------------------------------- events of a user monitor

  /** requestLock, at a node that knows the monitor to exist (assumption H). */
  lemma OnLock(k: World, keys: set<Str>, i: NodeId, stamp: nat)
    requires UserInv(k, keys) && Small(k) && i < k.n
    requires k.slots[i].priv.Some? ==> k.slots[i].priv.value.created
    ensures var (s, outs) := RequestLock(k.C(i), k.t, k.slots[i]);
      UserStep(k, Apply(k, i, s, {}, stamp, outs), keys)
  {
    hide SK.Inv, AtMostOne, Place;
    var s0 := k.slots[i];
    var (s, outs) := RequestLock(k.C(i), k.t, s0);
    var k' := Apply(k, i, s, {}, stamp, outs);
    if s == s0 {
      assert k' == k;
      OnwardSame(k);
    } else {
      var s1 := s0.(pendGrant := true);
      Cosmetic(k, i, s1, stamp);
      var k1 := Apply(k, i, s1, {}, stamp, {});
      if !k.up[i] {
        OnwardSame(k);
      } else if Owner(s0) {
        GrantOwned(k1, i, stamp);
        Twice(k, i, s1, s, {}, stamp, outs);
      } else {
        OnAsk(k1, i, stamp);
        Twice(k, i, s1, s, {}, stamp, outs);
        OnwardSame(k);
      }
    }
  }

  /** requestUnlock: the token stays, or goes to the head of the queue. */
  lemma OnUnlock(k: World, keys: set<Str>, i: NodeId, stamp: nat)
    requires UserInv(k, keys) && Small(k) && i < k.n
    ensures var (s, outs) := RequestUnlock(k.C(i), k.t, k.slots[i]);
      UserStep(k, Apply(k, i, s, {}, stamp, outs), keys)
  {
    hide Inv, AtMostOne, Release, Place;
    InvShape(k);
    var s0 := k.slots[i];
    var (s, outs) := RequestUnlock(k.C(i), k.t, s0);
    var k' := Apply(k, i, s, {}, stamp, outs);
    if s0.priv.None? || !s0.priv.value.locked {
      assert k' == k;
      OnwardSame(k);
    } else {
      PassRefines(k, i, {}, stamp);
      InvShape(k');
      PassNotToSelf(k, i);
      ReleaseFrame(s0.priv.value.(locked := false), i, k.n);
      ReleaseIgnoresLock(s0.priv.value, false, i);
      PassedGives(k, keys, i, s, {}, stamp, outs);
    }
  }

  /** Every token in flight carries a full set of properties. */
  lemma PassedGives(k: World, keys: set<Str>, i: NodeId, s: Slot, used: set<Packet>, stamp: nat, outs: set<Out>)
    requires i < |k.slots|
    requires forall p :: p in k.net && p.msg.Give? ==> p.msg.data.props.Keys == keys
    requires forall o :: o in outs && o.msg.Give? ==> o.msg.data.props.Keys == keys
    ensures forall p :: p in Apply(k, i, s, used, stamp, outs).net && p.msg.Give? ==> p.msg.data.props.Keys == keys
  {
    forall p | p in Stamped(i, stamp, outs) && p.msg.Give?
      ensures p.msg.data.props.Keys == keys
    {
      assert Out(p.dst, p.msg) in outs;
    }
  }

  /** Nobody asks for a token that does not exist. */
  lemma RequestMinted(k: World, p: Packet)
    requires Inv(k) && p in k.net && p.msg.Request?
    ensures k.minted
  {
    assert SK.Req(p.src, p.dst, p.msg.num) in Abs(k).reqs;
  }

  lemma OnUserRequest(k: World, keys: set<Str>, p: Packet, stamp: nat)
    requires UserInv(k, keys) && Small(k) && p in k.net && p.msg.Request?
    ensures var (s, outs) := GetRequest(k.C(p.dst), k.t, k.slots[p.dst], p.src, p.msg.num, {});
      UserStep(k, Apply(k, p.dst, s, {p}, stamp, outs), keys)
  {
    hide Inv, AtMostOne, Place, Small;
    InvShape(k);
    var i := p.dst;
    var s0 := k.slots[i];
    var (s, outs) := GetRequest(k.C(i), k.t, s0, p.src, p.msg.num, {});
    var k' := Apply(k, i, s, {p}, stamp, outs);
    OnRequest(k, p, {}, stamp);
    RequestMinted(k, p);
    InvShape(k');
    PassedGives(k, keys, i, s, {p}, stamp, outs);
  }

  /** The token arrives: it is accepted, its properties are loaded, and the lock is granted. */
  lemma OnUserGive(k: World, keys: set<Str>, p: Packet, stamp: nat)
    requires UserInv(k, keys) && p in k.net && p.msg.Give?
    ensures Accepts(k.slots[p.dst])
    ensures var s := GetGive(k.C(p.dst), k.slots[p.dst], p.msg.data);
      var k' := Apply(k, p.dst, s, {p}, stamp, {});
      && UserStep(k, k', keys)
      && s.priv.value.locked && s.pub == Some(p.msg.data.props)
  {
    hide SK.Inv;
    hide AtMostOne;
    var i := p.dst;
    Welcome(k, p);
    var s := GetGive(k.C(i), k.slots[i], p.msg.data);
    var k' := Apply(k, i, s, {p}, stamp, {});
    TakeRefines(k, p, s, stamp);
    LoadReplaces(k.slots[i].pub.value, p.msg.data.props);
    PassedGives(k, keys, i, s, {p}, stamp, {});
  }

  /** The system token settles an entry: it is known to exist elsewhere, or it is minted here. */
  lemma OnAdopt(k: World, keys: set<Str>, i: NodeId, stamp: nat)
    requires UserInv(k, keys) && i < k.n
    ensures var (s, outs) := Adopt(k.C(i), k.t, k.slots[i], k.minted);
      var k' := Apply(k, i, s, {}, stamp, outs).(minted := k.minted || k.slots[i].priv.Some?);
      UserStep(k, k', keys)
  {
    hide SK.Inv;
    hide AtMostOne;
    var s0 := k.slots[i];
    var (s, outs) := Adopt(k.C(i), k.t, s0, k.minted);
    var k' := Apply(k, i, s, {}, stamp, outs).(minted := k.minted || s0.priv.Some?);
    if s0.priv.None? || s0.priv.value.created {
      assert k' == k;
      OnwardSame(k);
    } else if k.minted {
      assert k' == Apply(k, i, s, {}, stamp, {});
      Cosmetic(k, i, s, stamp);
      OnwardSame(k);
    } else {
      OnMint(k, keys, i, s, stamp);
    }
  }

  lemma OnMint(k: World, keys: set<Str>, i: NodeId, s: Slot, stamp: nat)
    requires UserInv(k, keys) && i < k.n && !k.minted
    requires Owner(s) && s.priv.value.created && !s.priv.value.locked && SlotOk(k.C(i), s) && Bound(s.pub, keys)
    requires s.pendReq == k.slots[i].pendReq && s.pendGrant == k.slots[i].pendGrant
    requires s.priv.value.ln == seq(k.n, _ => 0) && s.priv.value.queue == [] && Row(s, k.n) == Row(k.slots[i], k.n)
    ensures var k' := Apply(k, i, s, {}, stamp, {}).(minted := true);
      UserStep(k, k', keys)
  {
    hide SK.Inv;
    hide AtMostOne;
    var k' := Apply(k, i, s, {}, stamp, {}).(minted := true);
    assert !k.slots[i].pendReq;
    MintRefines(k, i, s, stamp);
    PlaceNone(k);
  }

  /** A process declares the monitor at node i. */
  lemma OnDeclare(k: World, keys: set<Str>, i: NodeId, props: Props, created: bool, owned: bool, stamp: nat)
    requires UserInv(k, keys) && i < k.n && props.Keys == keys
    requires owned ==> created && (k.slots[i].priv.None? && k.slots[i].pub.None? ==> !k.minted)
    requires created && !owned ==> k.minted
    ensures var s := Declare(k.C(i), k.slots[i], props, created, owned);
      var first := k.slots[i].priv.None? && k.slots[i].pub.None?;
      UserStep(k, Apply(k, i, s, {}, stamp, {}).(minted := k.minted || (owned && first)), keys)
  {
    hide SK.Inv;
    hide AtMostOne;
    var s0 := k.slots[i];
    var s := Declare(k.C(i), s0, props, created, owned);
    var first := s0.priv.None? && s0.pub.None?;
    var k' := Apply(k, i, s, {}, stamp, {}).(minted := k.minted || (owned && first));
    OnwardSame(k);
    if s0.pub.Some? {
      assert k' == k;
    } else if owned && first {
      OnMint(k, keys, i, s, stamp);
    } else {
      assert k' == Apply(k, i, s, {}, stamp, {});
      Cosmetic(k, i, s, stamp);
    }
  }

  /** The process inside the critical section writes its properties. */
  lemma OnWrite(k: World, keys: set<Str>, i: NodeId, props: Props, stamp: nat)
    requires UserInv(k, keys) && i < k.n && props.Keys == keys
    requires k.slots[i].priv.Some? && k.slots[i].priv.value.locked
    ensures UserStep(k, Apply(k, i, k.slots[i].(pub := Some(props)), {}, stamp, {}), keys)
  {
    hide SK.Inv;
    hide AtMostOne;
    var s := k.slots[i].(pub := Some(props));
    var k' := Apply(k, i, s, {}, stamp, {});
    Cosmetic(k, i, s, stamp);
    OnwardSame(k);
  }

  /** The last handshake arrives: a lock that was asked for early is granted if its token is here. */
  lemma OnUserUp(k: World, keys: set<Str>, i: NodeId, stamp: nat)
    requires UserInv(k, keys) && Small(k) && i < k.n && !k.up[i]
    ensures var (s, outs) := ComeUp(k.C(i).(up := true), k.t, k.slots[i]);
      UserStep(k, Apply(k.(up := k.up[i := true]), i, s, {}, stamp, outs), keys)
  {
    hide SK.Inv;
    hide AtMostOne;
    var s0 := k.slots[i];
    assert !s0.pendReq;
    var k0 := k.(up := k.up[i := true]);
    var (s, outs) := ComeUp(k.C(i).(up := true), k.t, s0);
    var k' := Apply(k0, i, s, {}, stamp, outs);
    OnUp(k, i, stamp);
    assert outs == {};
  }
}
