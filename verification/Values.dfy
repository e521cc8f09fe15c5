/** Who gets into a user monitor, how it stays there, and what value it finds, in every run. */
module Values {
  import opened Basics
  import opened Properties
  import opened Token
  import opened Slot
  import opened World
  import opened UserEvents
  import opened Brackets

  predicate In(s: Slot) {
    s.priv.Some? && s.priv.value.locked
  }

  // ---------------------------------------------------------------- getting in, staying in, getting out

  /** Whoever gets in had asked for it, and the grant is used up. */
  lemma Granting(k: World, e: Ev, stamp: nat, i: NodeId)
    requires Possible(k, e) && i < k.n && !In(k.slots[i]) && In(After(k, e, stamp).slots[i])
    ensures At(e) == i && (e.Locks? || k.slots[i].pendGrant) && !After(k, e, stamp).slots[i].pendGrant
  {
    hide Release, RequestUnlock, RequestLock, GetRequest, GetGive, Adopt, ComeUp, Declare;
    assert At(e) == i;
    var u := k.slots[i];
    match e {
      case Nothing =>
      case Locks(_) => LockGrants(k.C(i), k.t, u);
      case Unlocks(_) => UnlockLetsGo(k, i);
      case Writes(_, _) =>
      case Declares(_, props, created, owned) => DeclareGrants(k.C(i), u, props, created, owned);
      case Hears(p) => RequestGrants(k.C(i), k.t, u, p.src, p.msg.num);
      case Receives(p) => GiveGrants(k.C(i), u, p.msg.data);
      case Settles(_) => AdoptGrants(k.C(i), k.t, u, k.minted);
      case Rises(_) => UpGrants(k.C(i).(up := true), k.t, u);
    }
  }

  lemma LockGrants(c: Ctx, t: TokenId, s: Slot)
    requires SlotOk(c, s) && !In(s)
    ensures In(RequestLock(c, t, s).0) ==> !RequestLock(c, t, s).0.pendGrant
  {
  }

  lemma DeclareGrants(c: Ctx, s: Slot, props: Props, created: bool, owned: bool)
    requires !In(s)
    ensures !In(Declare(c, s, props, created, owned))
  {
  }

  lemma RequestGrants(c: Ctx, t: TokenId, s: Slot, from: NodeId, num: U32)
    requires SlotOk(c, s) && from < c.n && !In(s)
    ensures !In(GetRequest(c, t, s, from, num, {}).0)
  {
  }

  lemma GiveGrants(c: Ctx, s: Slot, d: TokenData)
    requires !In(s)
    ensures In(GetGive(c, s, d)) ==> s.pendGrant && !GetGive(c, s, d).pendGrant
  {
  }

  lemma AdoptGrants(c: Ctx, t: TokenId, s: Slot, exists_: bool)
    requires SlotOk(c, s) && !In(s)
    ensures In(Adopt(c, t, s, exists_).0) ==> s.pendGrant && !Adopt(c, t, s, exists_).0.pendGrant
  {
  }

  lemma UpGrants(c: Ctx, t: TokenId, s: Slot)
    requires SlotOk(c, s) && !In(s)
    ensures In(ComeUp(c, t, s).0) ==> s.pendGrant && !ComeUp(c, t, s).0.pendGrant
  {
  }

  lemma UnlockLetsGo(k: World, i: NodeId)
    requires Possible(k, Unlocks(i))
    ensures !In(Effect(k, Unlocks(i)).0)
  {
    var u := k.slots[i];
    if In(u) {
      ReleaseFrame(u.priv.value.(locked := false), i, k.n);
    }
  }

  /** Whoever is in stays in with its properties unchanged, but for its own unlocking and writing. */
  lemma Staying(k: World, e: Ev, stamp: nat, i: NodeId)
    requires Single(k) && Possible(k, e) && i < k.n && In(k.slots[i]) && k.slots[i].pub.Some?
    requires At(e) == i ==> !e.Unlocks? && !e.Writes?
    ensures In(After(k, e, stamp).slots[i]) && After(k, e, stamp).slots[i].pub == k.slots[i].pub
  {
    assert e.Receives? ==> At(e) != i by {
      assert Holds(k.slots[i]);
    }
  }

  // ---------------------------------------------------------------- the value

  /** Where a monitor is declared its properties are the declared ones, and it is declared where its token can come. */
  ghost predicate Declared(s: Slot, keys: set<Str>) {
    && (s.pub.Some? ==> s.pub.value.Keys == keys)
    && (Open(s) || Holds(s) ==> s.pub.Some?)
  }

  /** v is the value of the monitor: what the holder has, or what travels with the token. */
  ghost predicate Valued(k: World, keys: set<Str>, v: Option<Props>) {
    && WellFormed(k)
    && (k.minted <==> v.Some?)
    && (forall i: nat :: i < k.n ==> Declared(k.slots[i], keys))
    && (forall i: nat :: i < k.n && Holds(k.slots[i]) ==> k.slots[i].pub == v)
    && (forall p :: p in k.net && p.msg.Give? ==> Some(p.msg.data.props) == v && p.msg.data.props.Keys == keys)
  }

  /** The value after an event: what was written, or what the monitor was created with, or what it was. */
  function NextValue(k: World, e: Ev, v: Option<Props>): Option<Props>
    requires Possible(k, e)
  {
    if e.Writes? then Some(e.props) else if Creates(k, e) then Some(PropsOf(Effect(k, e).0.pub)) else v
  }

  /** The handler's slot and packets carry the value on. */
  lemma EffectValued(k: World, keys: set<Str>, e: Ev, v: Option<Props>)
    requires Single(k) && Possible(k, e) && Valued(k, keys, v) && ((e.Declares? || e.Writes?) ==> e.props.Keys == keys)
    requires e.Receives? ==> Accepts(k.slots[e.p.dst]) && k.slots[e.p.dst].pub.Some?
    ensures var (s, outs) := Effect(k, e);
      var w := NextValue(k, e, v);
      && Declared(s, keys) && (Holds(s) ==> s.pub == w)
      && forall o :: o in outs && o.msg.Give? ==> Some(o.msg.data.props) == w && o.msg.data.props.Keys == keys
  {
    hide Effect, Creates, Declared, Valued, Release;
    if e.Hears? || e.Unlocks? {
      HandsValued(k, keys, e, v);
    } else {
      KeepsValued(k, keys, e, v);
    }
  }

  /** Events that may send the token away. */
  lemma HandsValued(k: World, keys: set<Str>, e: Ev, v: Option<Props>)
    requires Single(k) && Possible(k, e) && Valued(k, keys, v) && (e.Hears? || e.Unlocks?)
    ensures var (s, outs) := Effect(k, e);
      && !Creates(k, e) && Declared(s, keys) && (Holds(s) ==> s.pub == v)
      && forall o :: o in outs && o.msg.Give? ==> Some(o.msg.data.props) == v && o.msg.data.props.Keys == keys
  {
    hide Release, AtMostOne;
    var u := k.slots[At(e)];
    assert Declared(u, keys);
    if e.Unlocks? && In(u) {
      ReleaseFrame(u.priv.value.(locked := false), e.i, k.n);
    }
  }

  /** Events that do not. */
  lemma KeepsValued(k: World, keys: set<Str>, e: Ev, v: Option<Props>)
    requires Single(k) && Possible(k, e) && Valued(k, keys, v) && ((e.Declares? || e.Writes?) ==> e.props.Keys == keys)
    requires e.Receives? ==> Accepts(k.slots[e.p.dst]) && k.slots[e.p.dst].pub.Some?
    requires !e.Hears? && !e.Unlocks?
    ensures var (s, outs) := Effect(k, e);
      var w := NextValue(k, e, v);
      && Declared(s, keys) && (Holds(s) ==> s.pub == w) && forall o :: o in outs ==> !o.msg.Give?
  {
    hide AtMostOne, RequestLock, Adopt, ComeUp, Declare, GetGive;
    hide Valued, Holds;
    AtIn(k, e);
    SlotValued(k, keys, v, At(e));
    var u := k.slots[At(e)];
    match e {
      case Nothing =>
      case Locks(i) => LockValued(k.C(i), k.t, u);
      case Writes(_, _) =>
      case Declares(i, props, created, owned) => {
        if Creates(k, e) {
          NotHeldYet(k, i);
        }
        DeclareValued(k.C(i), u, props, created, owned, keys);
      }
      case Receives(p) => {
        PacketValued(k, keys, v, p);
        LoadReplaces(u.pub.value, p.msg.data.props);
        GiveValued(k.C(p.dst), u, p.msg.data);
      }
      case Settles(i) => {
        if Creates(k, e) {
          NotHeldYet(k, i);
        }
        AdoptValued(k.C(i), k.t, u, k.minted);
      }
      case Rises(i) => UpValued(k.C(i).(up := true), k.t, u);
    }
  }

  lemma AtIn(k: World, e: Ev)
    requires WellFormed(k) && Possible(k, e)
    ensures At(e) < k.n
  {
  }

  lemma SlotValued(k: World, keys: set<Str>, v: Option<Props>, i: NodeId)
    requires Single(k) && Valued(k, keys, v) && i < k.n
    ensures SlotOk(k.C(i), k.slots[i]) && Declared(k.slots[i], keys) && (Holds(k.slots[i]) ==> k.slots[i].pub == v)
    ensures k.minted <==> v.Some?
  {
  }

  lemma PacketValued(k: World, keys: set<Str>, v: Option<Props>, p: Packet)
    requires Valued(k, keys, v) && p in k.net && p.msg.Give?
    ensures Some(p.msg.data.props) == v && p.msg.data.props.Keys == keys && p.dst < k.n
  {
  }

  /** What a handler leaves of the properties of a node that does not load them. */
  predicate SamePub(s: Slot, s': Slot, outs: set<Out>) {
    s'.pub == s.pub && forall o :: o in outs ==> !o.msg.Give?
  }

  lemma LockValued(c: Ctx, t: TokenId, s: Slot)
    requires SlotOk(c, s)
    ensures var (s', outs) := RequestLock(c, t, s); SamePub(s, s', outs) && (Holds(s') ==> Holds(s)) && (Open(s') ==> Open(s))
  {
  }

  lemma DeclareValued(c: Ctx, s: Slot, props: Props, created: bool, owned: bool, keys: set<Str>)
    requires Declared(s, keys) && props.Keys == keys
    ensures var s' := Declare(c, s, props, created, owned);
      Declared(s', keys) && (s.pub.Some? ==> s' == s) && (Holds(s') ==> Holds(s) || (First(s) && owned)) && (First(s) ==> s'.pub == Some(props))
      && (Holds(s) ==> s' == s)
  {
  }

  lemma GiveValued(c: Ctx, s: Slot, d: TokenData)
    requires Accepts(s) && s.pub.Some?
    ensures GetGive(c, s, d).pub == Some(LoadProps(s.pub.value, d.props)) && Holds(GetGive(c, s, d))
  {
  }

  lemma AdoptValued(c: Ctx, t: TokenId, s: Slot, exists_: bool)
    requires SlotOk(c, s)
    ensures var (s', outs) := Adopt(c, t, s, exists_);
      SamePub(s, s', outs) && (Holds(s') ==> Holds(s) || (Open(s) && !exists_)) && !Open(s')
  {
  }

  lemma UpValued(c: Ctx, t: TokenId, s: Slot)
    requires SlotOk(c, s)
    ensures var (s', outs) := ComeUp(c, t, s); SamePub(s, s', outs) && (Holds(s') ==> Holds(s)) && (Open(s') ==> Open(s))
  {
  }

  lemma NotHeldYet(k: World, i: NodeId)
    requires Single(k) && !k.minted && i < k.n
    ensures !Holds(k.slots[i])
  {
  }

  lemma ValuedAfter(k: World, keys: set<Str>, e: Ev, stamp: nat, v: Option<Props>)
    requires Single(k) && Possible(k, e) && Valued(k, keys, v) && ((e.Declares? || e.Writes?) ==> e.props.Keys == keys)
    requires e.Receives? ==> Accepts(k.slots[e.p.dst]) && k.slots[e.p.dst].pub.Some?
    requires WellFormed(After(k, e, stamp))
    ensures Valued(After(k, e, stamp), keys, NextValue(k, e, v))
  {
    hide Effect, Declared, AtMostOne, Creates, Holds, Possible, After, WellFormed;
    EffectValued(k, keys, e, v);
    AfterParts(k, e, stamp);
    var k' := After(k, e, stamp);
    var w := NextValue(k, e, v);
    if w != v {
      OnlyHere(k, e);
    }
    forall i: nat | i < k'.n
      ensures Declared(k'.slots[i], keys) && (Holds(k'.slots[i]) ==> k'.slots[i].pub == w)
    {
      if i != At(e) {
        SlotValued(k, keys, v, i);
      }
    }
    forall p | p in k'.net && p.msg.Give?
      ensures Some(p.msg.data.props) == w && p.msg.data.props.Keys == keys
    {
      if p in Stamped(At(e), stamp, Effect(k, e).1) {
        OutIn(At(e), stamp, Effect(k, e).1, p);
      }
    }
  }

  lemma AfterParts(k: World, e: Ev, stamp: nat)
    requires WellFormed(k) && Possible(k, e) && WellFormed(After(k, e, stamp))
    ensures var k' := After(k, e, stamp);
      && k'.n == k.n == |k.slots| && At(e) < k.n && k'.slots == k.slots[At(e) := Effect(k, e).0] && k'.minted == (k.minted || Creates(k, e))
      && (forall p :: p in k'.net ==> p in k.net || p in Stamped(At(e), stamp, Effect(k, e).1))
  {
    hide Effect, Creates, SlotOk;
  }

  /** Where the value changes nobody else has the token. */
  lemma OnlyHere(k: World, e: Ev)
    requires Single(k) && Possible(k, e) && (e.Writes? || Creates(k, e))
    ensures At(e) < k.n
    ensures forall x: nat :: x < k.n && x != At(e) ==> !Holds(k.slots[x])
    ensures forall p :: p in k.net ==> !p.msg.Give?
    ensures e.Writes? ==> k.minted
  {
    if e.Writes? {
      assert Holds(k.slots[e.i]);
    }
  }
}
