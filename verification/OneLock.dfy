/** What a user monitor amounts to: one lock guarding one valuation. */
module OneLock {
  import opened Basics
  import opened Properties
  import opened Slot
  import opened World
  import opened UserEvents
  import opened Refinement
  import opened Monitors
  import opened Values

  datatype SharedLock = Absent | Lock(holder: Option<NodeId>, value: Props)

  /** Held by whoever is locked; valued by the owner's properties, or by those travelling with the token. */
  ghost function LockOf(k: World): SharedLock {
    if exists i: nat :: OwnedAt(k, i) then
      var i: nat :| OwnedAt(k, i);
      Lock(if k.slots[i].priv.value.locked then Some(i) else None, PropsOf(k.slots[i].pub))
    else if exists p :: Flying(k, p) then
      var p :| Flying(k, p);
      Lock(None, p.msg.data.props)
    else Absent
  }

  lemma LockOwned(k: World, i: nat)
    requires WellFormed(k) && AtMostOne(k) && OwnedAt(k, i)
    ensures LockOf(k) == Lock(if k.slots[i].priv.value.locked then Some(i) else None, PropsOf(k.slots[i].pub))
  {
  }

  lemma LockFlying(k: World, p: Packet)
    requires WellFormed(k) && AtMostOne(k) && Flying(k, p)
    ensures LockOf(k) == Lock(None, p.msg.data.props)
  {
    assert forall i: nat :: OwnedAt(k, i) ==> Holds(k.slots[i]);
  }

  /** Where the lock is held, and where it is free; it exists exactly when the monitor does. */
  lemma LockParts(k: World, keys: set<Str>)
    requires UserInv(k, keys)
    ensures WellFormed(k) && Single(k)
    ensures LockOf(k).Lock? <==> k.minted
    ensures forall i: nat :: i < k.n && In(k.slots[i]) ==> k.slots[i].pub.Some? && LockOf(k).Lock? && LockOf(k).holder == Some(i)
    ensures LockOf(k).Lock? && LockOf(k).holder.Some? ==> LockOf(k).holder.value < k.n && In(k.slots[LockOf(k).holder.value])
    ensures Valued(k, keys, if k.minted then Some(LockOf(k).value) else None)
  {
    hide SK.Inv, AtMostOne, LockOf, Place;
    InvShape(k);
    if k.minted {
      LockThere(k, keys);
    } else {
      LockNone(k);
    }
  }

  lemma LockNone(k: World)
    requires Base(k) && !k.minted
    ensures LockOf(k) == Absent
    ensures forall i: nat :: i < k.n ==> !Holds(k.slots[i])
    ensures forall p :: p in k.net ==> !p.msg.Give?
  {
    assert forall i: nat :: OwnedAt(k, i) ==> Holds(k.slots[i]);
  }

  lemma LockThere(k: World, keys: set<Str>)
    requires UserInv(k, keys) && k.minted
    ensures LockOf(k).Lock?
    ensures forall i: nat :: i < k.n && In(k.slots[i]) ==> k.slots[i].pub.Some? && LockOf(k).holder == Some(i)
    ensures LockOf(k).holder.Some? ==> LockOf(k).holder.value < k.n && In(k.slots[LockOf(k).holder.value])
    ensures Valued(k, keys, Some(LockOf(k).value))
  {
    hide SK.Inv, LockOf;
    InvShape(k);
    forall i: nat | i < k.n
      ensures Declared(k.slots[i], keys) && (Holds(k.slots[i]) ==> Owner(k.slots[i]))
    {
      assert UserSlot(k.slots[i], k.n, k.up[i], k.minted, keys) && FlagsOk(k.slots[i], k.up[i]);
    }
    if Place(k).At? {
      AtMeans(k);
      LockOwned(k, Place(k).h);
      HolderAlone(k, Place(k).h);
    } else {
      var p := ToMeans(k);
      LockFlying(k, p);
      FlightAlone(k, p);
    }
  }

  lemma HolderAlone(k: World, h: NodeId)
    requires Single(k) && OwnedAt(k, h) && h < k.n
    ensures forall i: nat :: i < k.n && Holds(k.slots[i]) ==> i == h
    ensures forall p :: p in k.net ==> !p.msg.Give?
  {
    assert Holds(k.slots[h]);
  }

  lemma FlightAlone(k: World, p: Packet)
    requires Single(k) && Flying(k, p)
    ensures forall i: nat :: i < k.n ==> !Holds(k.slots[i])
    ensures forall q :: q in k.net && q.msg.Give? ==> q == p
  {
  }

  // ---------------------------------------------------------------- the moves of the lock

  /** Only creating the monitor makes the lock, free and with the creator's value; only a write inside changes the value;
      only its holder's unlock frees it; and it is granted only where it was asked for, which uses the request up. */
  ghost predicate LockMoves(k: World, e: Ev, k': World)
    requires Possible(k, e)
  {
    var l := LockOf(k);
    var l' := LockOf(k');
    if l.Absent? then
      if Creates(k, e) then l' == Lock(None, PropsOf(Effect(k, e).0.pub)) else l'.Absent?
    else
      && !Creates(k, e) && l'.Lock?
      && l'.value == (if e.Writes? then e.props else l.value)
      && (l.holder.Some? ==> l'.holder == if e == Unlocks(l.holder.value) then None else l.holder)
      && (l.holder.None? && l'.holder.Some? ==>
            var i := l'.holder.value;
            && At(e) == i < |k.slots| && i < |k'.slots|
            && (e.Locks? || k.slots[i].pendGrant) && !k'.slots[i].pendGrant)
  }

  lemma LockAfter(k: World, keys: set<Str>, e: Ev, stamp: nat)
    requires UserInv(k, keys) && Possible(k, e) && UserInv(After(k, e, stamp), keys)
    requires e.Locks? && k.slots[e.i].priv.Some? ==> k.slots[e.i].priv.value.created
    requires (e.Declares? || e.Writes?) ==> e.props.Keys == keys
    ensures LockMoves(k, e, After(k, e, stamp))
  {
    hide UserInv, Effect, Valued, In, LockOf, AtMostOne, Creates;
    var k' := After(k, e, stamp);
    LockParts(k, keys);
    LockParts(k', keys);
    if e.Receives? {
      Accepted(k, keys, e.p);
    }
    ValuedAfter(k, keys, e, stamp, if k.minted then Some(LockOf(k).value) else None);
    ValuedOnce(k', keys, NextValue(k, e, if k.minted then Some(LockOf(k).value) else None));
    CreatesNew(k, e);
    if k.minted {
      HolderAfter(k, keys, e, stamp);
    } else {
      FreshIsFree(k, keys, e, stamp);
    }
  }

  lemma Accepted(k: World, keys: set<Str>, p: Packet)
    requires UserInv(k, keys) && p in k.net && p.msg.Give?
    ensures p.dst < k.n && Accepts(k.slots[p.dst]) && k.slots[p.dst].pub.Some?
  {
    hide SK.Inv;
    Welcome(k, p);
  }

  /** A monitor that exists has one value. */
  lemma ValuedOnce(k: World, keys: set<Str>, v: Option<Props>)
    requires UserInv(k, keys) && Valued(k, keys, v)
    ensures v == if k.minted then Some(LockOf(k).value) else None
  {
    hide SK.Inv;
    InvShape(k);
    if k.minted {
      if Place(k).At? {
        AtMeans(k);
        LockOwned(k, Place(k).h);
        assert Holds(k.slots[Place(k).h]);
      } else {
        var p := ToMeans(k);
        LockFlying(k, p);
      }
    }
  }

  lemma CreatesNew(k: World, e: Ev)
    requires Possible(k, e)
    ensures Creates(k, e) ==> !k.minted && !e.Writes?
  {
  }

  lemma HolderAfter(k: World, keys: set<Str>, e: Ev, stamp: nat)
    requires UserInv(k, keys) && Possible(k, e) && UserInv(After(k, e, stamp), keys) && k.minted
    requires LockOf(After(k, e, stamp)).Lock? && LockOf(k).Lock?
    ensures var l := LockOf(k);
      var k' := After(k, e, stamp);
      var l' := LockOf(k');
      && (l.holder.Some? ==> l'.holder == if e == Unlocks(l.holder.value) then None else l.holder)
      && (l.holder.None? && l'.holder.Some? ==>
            var i := l'.holder.value;
            && At(e) == i < |k.slots| && i < |k'.slots|
            && (e.Locks? || k.slots[i].pendGrant) && !k'.slots[i].pendGrant)
  {
    hide UserInv, Effect, Valued, In, LockOf, AtMostOne, Creates, Single, Possible;
    var k' := After(k, e, stamp);
    LockParts(k, keys);
    LockParts(k', keys);
    SameSize(k, e, stamp);
    var l := LockOf(k);
    if l.holder.Some? {
      HeldAfter(k, keys, e, stamp, l.holder.value);
    } else if LockOf(k').holder.Some? {
      Granting(k, e, stamp, LockOf(k').holder.value);
    }
  }

  lemma SameSize(k: World, e: Ev, stamp: nat)
    requires Possible(k, e)
    ensures After(k, e, stamp).n == k.n && |After(k, e, stamp).slots| == |k.slots| == k.n
    ensures forall i: nat :: i < k.n && i != At(e) ==> After(k, e, stamp).slots[i] == k.slots[i]
  {
  }

  /** The holder keeps the lock through everything but its own unlocking. */
  lemma HeldAfter(k: World, keys: set<Str>, e: Ev, stamp: nat, h: NodeId)
    requires UserInv(k, keys) && Possible(k, e) && UserInv(After(k, e, stamp), keys) && h < k.n && In(k.slots[h])
    requires LockOf(k).Lock? && LockOf(k).holder == Some(h) && LockOf(After(k, e, stamp)).Lock?
    ensures LockOf(After(k, e, stamp)).holder == if e == Unlocks(h) then None else Some(h)
  {
    hide UserInv, Effect, Valued, LockOf, AtMostOne, Creates, Single;
    var k' := After(k, e, stamp);
    LockParts(k, keys);
    LockParts(k', keys);
    SameSize(k, e, stamp);
    if e == Unlocks(h) {
      UnlockLetsGo(k, h);
      assert !In(k'.slots[h]);
      forall x: nat | x < k.n && x != h
        ensures !In(k'.slots[x])
      {
        assert k'.slots[x] == k.slots[x];
      }
    } else if e.Writes? && e.i == h {
      WriteStaysIn(k, e);
    } else {
      Staying(k, e, stamp, h);
    }
  }

  lemma WriteStaysIn(k: World, e: Ev)
    requires Possible(k, e) && e.Writes?
    ensures In(Effect(k, e).0)
  {
  }

  /** Under H nobody waits for a monitor that does not exist, so it is created free. */
  lemma FreshIsFree(k: World, keys: set<Str>, e: Ev, stamp: nat)
    requires UserInv(k, keys) && Possible(k, e) && UserInv(After(k, e, stamp), keys) && !k.minted
    ensures var l' := LockOf(After(k, e, stamp)); l'.Lock? ==> l'.holder.None?
  {
    hide Inv, Valued, LockOf, AtMostOne;
    var k' := After(k, e, stamp);
    LockParts(k, keys);
    LockParts(k', keys);
    SameSize(k, e, stamp);
    if LockOf(k').Lock? && LockOf(k').holder.Some? {
      var i := LockOf(k').holder.value;
      assert !In(k.slots[i]);
      assert UserSlot(k.slots[i], k.n, k.up[i], k.minted, keys);
      Granting(k, e, stamp, i);
    }
  }
}
