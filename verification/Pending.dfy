/** What an entry in m_pendingRequests stands for: an open request, unless the monitor is created where the entry is. */
module Pending {
  import opened Basics
  import opened Token
  import opened Slot
  import opened Node
  import opened World
  import opened UserEvents
  import opened Refinement
  import opened Monitors
  import opened Brackets
  import opened Attention
  import opened Values
  import opened Cluster
  import opened Startup
  import opened Tokens
  import opened Users
  import opened Exclusion
  import opened Runs
  import opened Theorems
  import opened Always
  import opened Conservation

  // ---------------------------------------------------------------- in terms of slots and packets

  /** With the token at h, or on its way there, the pending nodes are those with an open request; h's own is over when the
      token is there. */
  ghost predicate LineOk(k: World, h: NodeId, ln: seq<nat>, there: bool)
    requires WellFormed(k)
  {
    |ln| == k.n && forall x: nat :: x < k.n ==> (k.slots[x].pendReq <==> !(there && x == h) && Nums(k)[x] == ln[x] + 1)
  }

  ghost predicate PendingOk(k: World) {
    && WellFormed(k)
    && (!k.minted ==> forall x: nat :: x < k.n ==> (k.slots[x].pendReq <==> Nums(k)[x] == 1))
    && (forall h: nat :: h < k.n && Holds(k.slots[h]) ==> LineOk(k, h, k.slots[h].priv.value.ln, true))
    && (forall p :: p in k.net && p.msg.Give? ==> LineOk(k, p.dst, p.msg.data.ln, false))
  }

  /** Node x is pending for a request that the token, unless x itself has it, counts as served. */
  ghost predicate Stuck(k: World, x: NodeId) {
    && WellFormed(k) && k.minted && x < k.n && k.slots[x].pendReq
    && (forall h: nat :: h < k.n && Holds(k.slots[h]) && h != x ==>
          |k.slots[h].priv.value.ln| == k.n && k.slots[h].priv.value.ln[x] == Nums(k)[x])
    && (forall p :: p in k.net && p.msg.Give? ==> |p.msg.data.ln| == k.n && p.msg.data.ln[x] == Nums(k)[x])
  }

  /** The event creates the monitor at a node that is pending for it. */
  predicate Strands(k: World, e: Ev)
    requires Possible(k, e)
  {
    e.Settles? && Creates(k, e) && k.slots[e.i].pendReq
  }

  predicate SameBut(ln: seq<nat>, ln': seq<nat>, i: NodeId) {
    |ln'| == |ln| && forall x: nat :: x < |ln| && x != i ==> ln'[x] == ln[x]
  }

  /** What a node does without getting or creating the token: it keeps or passes the token it has, and an entry in
      m_pendingRequests appears with the next request and stays. */
  ghost predicate Steady(u: Slot, s: Slot, n: nat, i: NodeId, outs: set<Out>)
    requires i < n
  {
    var r := Row(u, n)[i];
    var r' := Row(s, n)[i];
    && (Holds(s) ==> Holds(u) && SameBut(u.priv.value.ln, s.priv.value.ln, i))
    && (forall o :: o in outs && o.msg.Give? ==>
          Holds(u) && SameBut(u.priv.value.ln, o.msg.data.ln, i) && i < |o.msg.data.ln| && o.msg.data.ln[i] == r)
    && ((s.pendReq == u.pendReq && r' == r) || (!u.pendReq && s.pendReq && !Holds(u) && r' == r + 1))
    && (u.pendGrant && u.pendReq && !Holds(u) ==> s.pendGrant)
  }

  // ---------------------------------------------------------------- the handlers

  lemma UnlockSteady(k: World, i: NodeId)
    requires WInv(k) && i < k.n
    ensures var (s, outs) := RequestUnlock(k.C(i), k.t, k.slots[i]); Steady(k.slots[i], s, k.n, i, outs)
  {
    hide WInv, Release, Bracketed, AtMostOne;
    WParts(k, i);
    var u := k.slots[i];
    if u.priv.Some? && u.priv.value.locked {
      ReleaseFrame(u.priv.value.(locked := false), i, k.n);
    }
  }

  lemma LockSteady(k: World, i: NodeId)
    requires WInv(k) && Small(k) && i < k.n
    ensures var (s, outs) := RequestLock(k.C(i), k.t, k.slots[i]); Steady(k.slots[i], s, k.n, i, outs)
  {
    hide WInv, Bracketed, AtMostOne;
    WParts(k, i);
  }

  lemma RequestSteady(k: World, p: Packet)
    requires WInv(k) && Possible(k, Hears(p)) && p.dst < k.n
    ensures var (s, outs) := Effect(k, Hears(p)); Steady(k.slots[p.dst], s, k.n, p.dst, outs)
  {
    hide WInv, AtMostOne;
    var i := p.dst;
    InRangeW(k, p);
    WParts(k, i);
    var u := k.slots[i];
    HeardRow(k.C(i), u, p.src, p.msg.num);
    if Holds(u) && !u.priv.value.locked {
      IdleFits(k, i);
    }
  }

  lemma SettleSteady(k: World, i: NodeId)
    requires WInv(k) && Small(k) && Possible(k, Settles(i)) && !Creates(k, Settles(i))
    ensures var (s, outs) := Effect(k, Settles(i)); Steady(k.slots[i], s, k.n, i, outs)
  {
    hide WInv, Bracketed, AtMostOne;
    WParts(k, i);
  }

  lemma DeclareSteady(k: World, e: Ev)
    requires WInv(k) && Possible(k, e) && e.Declares? && !Creates(k, e)
    ensures var (s, outs) := Effect(k, e); Steady(k.slots[e.i], s, k.n, e.i, outs)
  {
  }

  lemma RiseSteady(k: World, i: NodeId)
    requires WInv(k) && Possible(k, Rises(i))
    ensures var (s, outs) := Effect(k, Rises(i)); Steady(k.slots[i], s, k.n, i, outs)
  {
    hide Bracketed, AtMostOne, HeldOk, FlightOk;
    WParts(k, i);
  }

  lemma StandStill(u: Slot, s: Slot, n: nat, i: NodeId)
    requires i < n && s == u.(pub := s.pub)
    ensures Steady(u, s, n, i, {})
  {
  }

  lemma EffectSteady(k: World, e: Ev)
    requires WInv(k) && Small(k) && Possible(k, e) && At(e) < k.n && !e.Receives? && !Creates(k, e)
    ensures var (s, outs) := Effect(k, e); Steady(k.slots[At(e)], s, k.n, At(e), outs)
  {
    hide WInv, Steady, Creates, Possible, RequestLock, RequestUnlock, GetRequest, Adopt, ComeUp, Declare;
    match e
    case Locks(i) => LockSteady(k, i);
    case Unlocks(i) => UnlockSteady(k, i);
    case Hears(p) => RequestSteady(k, p);
    case Settles(i) => SettleSteady(k, i);
    case Declares(_, _, _, _) => DeclareSteady(k, e);
    case Rises(i) => RiseSteady(k, i);
    case Nothing => StandStill(k.slots[0], k.slots[0], k.n, 0);
    case Writes(i, props) => StandStill(k.slots[i], k.slots[i].(pub := Some(props)), k.n, i);
  }

  // ---------------------------------------------------------------- one event

  /** What an event at node i leaves: its slot, the packets, and the numbers. */
  ghost predicate Changed(k: World, k': World, i: NodeId, s: Slot, stamp: nat, outs: set<Out>) {
    && WellFormed(k) && WellFormed(k') && i < k.n && k'.n == k.n && |k.slots| == k.n && k'.slots == k.slots[i := s]
    && (forall p :: p in k'.net ==> p in k.net || p in Stamped(i, stamp, outs))
    && Nums(k') == Nums(k)[i := Row(s, k.n)[i]] && Nums(k)[i] == Row(k.slots[i], k.n)[i]
  }

  lemma IsChanged(k: World, e: Ev, stamp: nat)
    requires Possible(k, e) && WellFormed(After(k, e, stamp))
    ensures Changed(k, After(k, e, stamp), At(e), Effect(k, e).0, stamp, Effect(k, e).1)
  {
    hide Effect, SlotOk;
    AfterParts(k, e, stamp);
    assert WellFormed(k);
    var k' := After(k, e, stamp);
    assert Nums(k') == Nums(k)[At(e) := Row(Effect(k, e).0, k.n)[At(e)]];
  }

  /** The pending nodes and the token's LN after a node has kept, or passed, what it had. */
  lemma LineSteady(k: World, k': World, i: NodeId, s: Slot, stamp: nat, outs: set<Out>, h: NodeId, ln: seq<nat>, there: bool)
    requires Changed(k, k', i, s, stamp, outs) && Steady(k.slots[i], s, k.n, i, outs) && !Holds(k.slots[i])
    requires LineOk(k, h, ln, there) && ln[i] <= Nums(k)[i] <= ln[i] + 1 && (there ==> h != i)
    ensures LineOk(k', h, ln, there)
  {
    hide WellFormed, Row;
  }

  lemma OwnLineSteady(k: World, k': World, i: NodeId, s: Slot, stamp: nat, outs: set<Out>, ln: seq<nat>, h: NodeId, ln': seq<nat>, there: bool)
    requires Changed(k, k', i, s, stamp, outs) && Steady(k.slots[i], s, k.n, i, outs) && Holds(k.slots[i])
    requires LineOk(k, i, ln, true) && SameBut(ln, ln', i) && (if there then h == i else ln'[i] == Nums(k)[i])
    ensures LineOk(k', h, ln', there)
  {
    hide WellFormed, Row, LineOk, SameBut;
    ChangedParts(k, k', i, s, stamp, outs);
    assert Nums(k')[i] == Nums(k)[i];
    assert Nums(k') == Nums(k);
    SameLine(k, k', i, ln, h, ln', there);
  }

  /** The same numbers and the same entries, and LN moved at most at i. */
  lemma SameLine(k: World, k': World, i: NodeId, ln: seq<nat>, h: NodeId, ln': seq<nat>, there: bool)
    requires WellFormed(k) && WellFormed(k') && k'.n == k.n && i < k.n && Nums(k') == Nums(k)
    requires forall x: nat :: x < k.n ==> k'.slots[x].pendReq == k.slots[x].pendReq
    requires LineOk(k, i, ln, true) && SameBut(ln, ln', i) && (if there then h == i else ln'[i] == Nums(k)[i])
    ensures LineOk(k', h, ln', there)
  {
    hide WellFormed, Nums;
  }

  lemma SteadyKeeps(k: World, k': World, i: NodeId, s: Slot, stamp: nat, outs: set<Out>)
    requires WInv(k) && PendingOk(k) && Changed(k, k', i, s, stamp, outs) && Steady(k.slots[i], s, k.n, i, outs) && k'.minted == k.minted
    ensures PendingOk(k')
  {
    hide WInv, LineOk, Changed, Row, WellFormed, SameBut;
    ChangedParts(k, k', i, s, stamp, outs);
    forall h: nat | h < k'.n && Holds(k'.slots[h])
      ensures LineOk(k', h, k'.slots[h].priv.value.ln, true)
    {
      HeldLine(k, k', i, s, stamp, outs, h);
    }
    forall p | p in k'.net && p.msg.Give?
      ensures LineOk(k', p.dst, p.msg.data.ln, false)
    {
      SentLine(k, k', i, s, stamp, outs, p);
    }
    if !k'.minted {
      WParts(k, i);
    }
  }

  lemma ChangedParts(k: World, k': World, i: NodeId, s: Slot, stamp: nat, outs: set<Out>)
    requires Changed(k, k', i, s, stamp, outs)
    ensures WellFormed(k) && WellFormed(k') && i < k.n && k'.n == k.n && |k.slots| == k.n && k'.slots == k.slots[i := s]
    ensures Nums(k') == Nums(k)[i := Row(s, k.n)[i]] && Nums(k)[i] == Row(k.slots[i], k.n)[i]
    ensures forall p :: p in k'.net && p !in k.net ==> p.src == i && Out(p.dst, p.msg) in outs
  {
    hide WellFormed, Row;
    forall p | p in k'.net && p !in k.net
      ensures p.src == i && Out(p.dst, p.msg) in outs
    {
      OutIn(i, stamp, outs, p);
    }
  }

  lemma HeldLine(k: World, k': World, i: NodeId, s: Slot, stamp: nat, outs: set<Out>, h: NodeId)
    requires WInv(k) && PendingOk(k) && Changed(k, k', i, s, stamp, outs) && Steady(k.slots[i], s, k.n, i, outs)
    requires h < k.n && |k'.slots| == k.n && Holds(k'.slots[h])
    ensures WellFormed(k') && LineOk(k', h, k'.slots[h].priv.value.ln, true)
  {
    hide WInv, LineOk, Row, WellFormed, SameBut, Fit;
    if h == i {
      OwnLineSteady(k, k', i, s, stamp, outs, k.slots[i].priv.value.ln, i, s.priv.value.ln, true);
    } else {
      HeldFits(k, h);
      InShape(k);
      OneHolder(k, h, i);
      FitBounds(Nums(k), Waits(k), h, k.slots[h].priv.value.ln, k.slots[h].priv.value.queue);
      LineSteady(k, k', i, s, stamp, outs, h, k.slots[h].priv.value.ln, true);
    }
  }

  lemma SentLine(k: World, k': World, i: NodeId, s: Slot, stamp: nat, outs: set<Out>, p: Packet)
    requires WInv(k) && PendingOk(k) && Changed(k, k', i, s, stamp, outs) && Steady(k.slots[i], s, k.n, i, outs)
    requires p in k'.net && p.msg.Give?
    ensures WellFormed(k') && LineOk(k', p.dst, p.msg.data.ln, false)
  {
    hide WInv, LineOk, Changed, Row, WellFormed, SameBut, Fit;
    ChangedParts(k, k', i, s, stamp, outs);
    if p in k.net {
      FlightFits(k, p);
      InShape(k);
      HolderOrFlight(k, i, p);
      FitBounds(Nums(k), Waits(k), p.dst, p.msg.data.ln, p.msg.data.queue);
      LineSteady(k, k', i, s, stamp, outs, p.dst, p.msg.data.ln, false);
    } else {
      OwnLineSteady(k, k', i, s, stamp, outs, k.slots[i].priv.value.ln, p.dst, p.msg.data.ln, false);
    }
  }

  /** The token arrives: its addressee's request is over. */
  lemma ReceiveKeeps(k: World, p: Packet, stamp: nat)
    requires WInv(k) && PendingOk(k) && Possible(k, Receives(p)) && Accepts(k.slots[p.dst]) && Single(After(k, Receives(p), stamp))
    ensures PendingOk(After(k, Receives(p), stamp))
  {
    hide WInv, GetGive, Effect, After, AtMostOne, WellFormed, Row;
    var k' := After(k, Receives(p), stamp);
    InShape(k);
    InRangeW(k, p);
    Formed(k');
    IsChanged(k, Receives(p), stamp);
    ReceivedSlot(k, p);
    FlightFits(k, p);
    var s := Effect(k, Receives(p)).0;
    ChangedParts(k, k', p.dst, s, stamp, Effect(k, Receives(p)).1);
    assert LineOk(k, p.dst, p.msg.data.ln, false);
    assert Holds(k'.slots[p.dst]);
    OneOnly(k', p.dst);
    AfterMinted(k, Receives(p), stamp);
  }

  lemma AfterMinted(k: World, e: Ev, stamp: nat)
    requires Possible(k, e)
    ensures After(k, e, stamp).minted == (k.minted || Creates(k, e))
  {
    hide Effect, Creates;
  }

  lemma OneOnly(k: World, i: NodeId)
    requires Single(k) && |k.slots| == k.n && i < k.n && Holds(k.slots[i])
    ensures forall h: nat :: h < k.n && Holds(k.slots[h]) ==> h == i
    ensures forall p :: p in k.net ==> !p.msg.Give?
  {
  }

  lemma ReceivedSlot(k: World, p: Packet)
    requires WInv(k) && Possible(k, Receives(p)) && Accepts(k.slots[p.dst])
    ensures var s := Effect(k, Receives(p)).0;
      Holds(s) && s.priv.value.ln == p.msg.data.ln && !s.pendReq && Row(s, k.n) == Row(k.slots[p.dst], k.n)
    ensures Effect(k, Receives(p)).1 == {}
  {
  }

  /** The monitor is created: right for everybody, unless the node itself is pending. */
  lemma CreateKeeps(k: World, e: Ev, stamp: nat)
    requires WInv(k) && PendingOk(k) && Possible(k, e) && Creates(k, e) && Single(After(k, e, stamp))
    ensures PendingOk(After(k, e, stamp)) <==> !Strands(k, e)
  {
    hide WInv, Effect, After, AtMostOne, WellFormed, Row, Creates;
    var k' := After(k, e, stamp);
    var i := At(e);
    InShape(k);
    Formed(k');
    IsChanged(k, e, stamp);
    CreatedSlot(k, e);
    var s := Effect(k, e).0;
    ChangedParts(k, k', i, s, stamp, Effect(k, e).1);
    AfterMinted(k, e, stamp);
    assert Holds(k'.slots[i]);
    OneOnly(k', i);
    assert LineOk(k', i, s.priv.value.ln, true) <==> !s.pendReq;
  }

  lemma CreatedSlot(k: World, e: Ev)
    requires WInv(k) && Possible(k, e) && Creates(k, e)
    ensures At(e) < k.n && !k.minted && Effect(k, e).1 == {}
    ensures var s := Effect(k, e).0;
      Holds(s) && s.priv.value.ln == seq(k.n, _ => 0) && s.pendReq == k.slots[At(e)].pendReq && Row(s, k.n) == Row(k.slots[At(e)], k.n)
    ensures e.Settles? || !k.slots[At(e)].pendReq
  {
    hide Bracketed, AtMostOne, HeldOk, FlightOk;
    WParts(k, At(e));
  }

  /** An event keeps the entries in m_pendingRequests right exactly when it does not create the monitor where there is one. */
  lemma PendingAfter(k: World, e: Ev, stamp: nat)
    requires WInv(k) && Small(k) && PendingOk(k) && Possible(k, e) && Single(After(k, e, stamp))
    requires e.Receives? ==> Accepts(k.slots[e.p.dst])
    ensures PendingOk(After(k, e, stamp)) <==> !Strands(k, e)
  {
    hide WInv, PendingOk, Changed, Effect, After, AtMostOne, WellFormed, Creates, Steady, Single, Possible;
    if Creates(k, e) {
      CreateKeeps(k, e, stamp);
    } else if e.Receives? {
      ReceiveKeeps(k, e.p, stamp);
    } else {
      Formed(After(k, e, stamp));
      IsChanged(k, e, stamp);
      ChangedParts(k, After(k, e, stamp), At(e), Effect(k, e).0, stamp, Effect(k, e).1);
      EffectSteady(k, e);
      AfterMinted(k, e, stamp);
      SteadyKeeps(k, After(k, e, stamp), At(e), Effect(k, e).0, stamp, Effect(k, e).1);
    }
  }

  // ---------------------------------------------------------------- one event later

  /** Creating the monitor at a pending node leaves that node stuck. */
  lemma StrandedIsStuck(k: World, e: Ev, stamp: nat)
    requires WInv(k) && Possible(k, e) && Strands(k, e) && Single(After(k, e, stamp))
    ensures Stuck(After(k, e, stamp), e.i)
  {
    hide WInv, Effect, After, AtMostOne, WellFormed, Row, Creates;
    var k' := After(k, e, stamp);
    InShape(k);
    Formed(k');
    IsChanged(k, e, stamp);
    CreatedSlot(k, e);
    ChangedParts(k, k', e.i, Effect(k, e).0, stamp, Effect(k, e).1);
    AfterMinted(k, e, stamp);
    assert Holds(k'.slots[e.i]);
    OneOnly(k', e.i);
  }

  /** Only the node's own events matter: it keeps its entry and its number, and never has the token again once it has not. */
  lemma StuckSteady(k: World, k': World, i: NodeId, s: Slot, stamp: nat, outs: set<Out>, x: NodeId)
    requires Stuck(k, x) && Changed(k, k', i, s, stamp, outs) && Steady(k.slots[i], s, k.n, i, outs) && k'.minted == k.minted
    ensures Stuck(k', x) && Nums(k')[x] == Nums(k)[x] && (!Holds(k.slots[x]) ==> !Holds(k'.slots[x]))
    ensures !Holds(k.slots[x]) && k.slots[x].pendGrant ==> k'.slots[x].pendGrant
  {
    hide WellFormed, Changed, Row;
    ChangedParts(k, k', i, s, stamp, outs);
    assert Nums(k')[x] == Nums(k)[x];
    forall p | p in k'.net && p.msg.Give?
      ensures |p.msg.data.ln| == k.n && p.msg.data.ln[x] == Nums(k)[x]
    {
      Whole(k', p);
      if p !in k.net {
        assert Out(p.dst, p.msg) in outs;
      }
    }
  }

  lemma Whole(k: World, p: Packet)
    requires WellFormed(k) && p in k.net && p.msg.Give?
    ensures |p.msg.data.ln| == k.n
  {
  }

  lemma StuckReceives(k: World, p: Packet, stamp: nat, x: NodeId)
    requires WInv(k) && Stuck(k, x) && Possible(k, Receives(p)) && Accepts(k.slots[p.dst]) && Single(After(k, Receives(p), stamp))
    ensures var k' := After(k, Receives(p), stamp);
      Stuck(k', x) && Nums(k')[x] == Nums(k)[x] && |k'.slots| == k.n && k'.slots[x] == k.slots[x]
  {
    hide WInv, GetGive, Effect, After, AtMostOne, WellFormed, Row, Fit;
    var k' := After(k, Receives(p), stamp);
    InShape(k);
    InRangeW(k, p);
    Formed(k');
    IsChanged(k, Receives(p), stamp);
    ReceivedSlot(k, p);
    Wanted(k, p);
    ChangedParts(k, k', p.dst, Effect(k, Receives(p)).0, stamp, Effect(k, Receives(p)).1);
    assert Holds(k'.slots[p.dst]);
    OneOnly(k', p.dst);
    AfterMinted(k, Receives(p), stamp);
  }

  lemma Wanted(k: World, p: Packet)
    requires WInv(k) && p in k.net && p.msg.Give?
    ensures p.dst < k.n && |p.msg.data.ln| == k.n && WellFormed(k) && Nums(k)[p.dst] == p.msg.data.ln[p.dst] as int + 1
  {
    hide AtMostOne;
    assert FlightOk(k, p);
  }

  /** Whoever is stuck stays so, makes no other request, and never has the token again once it has not. */
  lemma StuckAfter(k: World, e: Ev, stamp: nat, x: NodeId)
    requires WInv(k) && Small(k) && Stuck(k, x) && Possible(k, e) && Single(After(k, e, stamp))
    requires e.Receives? ==> Accepts(k.slots[e.p.dst])
    ensures var k' := After(k, e, stamp);
      && Stuck(k', x) && Nums(k')[x] == Nums(k)[x] && |k'.slots| == k.n && |k.slots| == k.n && (!Holds(k.slots[x]) ==> !Holds(k'.slots[x]))
      && (!Holds(k.slots[x]) && k.slots[x].pendGrant ==> k'.slots[x].pendGrant)
  {
    hide WInv, Stuck, Changed, Effect, After, AtMostOne, WellFormed, Steady, Single, Possible;
    StuckRange(k, x);
    if e.Receives? {
      StuckReceives(k, e.p, stamp, x);
    } else {
      Formed(After(k, e, stamp));
      MintedNot(k, e);
      IsChanged(k, e, stamp);
      ChangedParts(k, After(k, e, stamp), At(e), Effect(k, e).0, stamp, Effect(k, e).1);
      EffectSteady(k, e);
      AfterMinted(k, e, stamp);
      StuckSteady(k, After(k, e, stamp), At(e), Effect(k, e).0, stamp, Effect(k, e).1, x);
    }
  }

  lemma StuckRange(k: World, x: NodeId)
    requires Stuck(k, x)
    ensures WellFormed(k) && x < k.n == |k.slots| && k.minted
  {
  }

  lemma MintedNot(k: World, e: Ev)
    requires Possible(k, e) && k.minted
    ensures !Creates(k, e)
  {
  }

  // ---------------------------------------------------------------- states

  /** A node has t in m_pendingRequests exactly when it has an open request: one that the token, wherever it is, counts as
      unserved, or the first one where there is no token yet. */
  ghost predicate PendingIsOpen(s: State, t: TokenId)
    requires Shape(s)
  {
    && (forall h: nat, ln, q, i: nat :: TokenAt(s, t, h, ln, q) && i < s.n && i < |ln| ==>
          (t in s.nodes[i].pendingRequests <==> i != h && Num(s, i, i, t) == ln[i] + 1))
    && (forall h: nat, ln, q, i: nat :: TokenTo(s, t, h, ln, q) && i < s.n && i < |ln| ==>
          (t in s.nodes[i].pendingRequests <==> Num(s, i, i, t) == ln[i] + 1))
    && (!Minted(s, t) ==> forall i: nat :: i < s.n ==> (t in s.nodes[i].pendingRequests <==> Num(s, i, i, t) == 1))
  }

  /** Node i has t in m_pendingRequests for a request that the token counts as served, unless the token is at i itself. */
  ghost predicate Stranded(s: State, t: TokenId, i: NodeId)
    requires Shape(s) && i < s.n
  {
    && Minted(s, t) && t in s.nodes[i].pendingRequests
    && (forall h: nat, ln, q :: TokenAt(s, t, h, ln, q) && h != i ==> |ln| == s.n && ln[i] == Num(s, i, i, t))
    && (forall h: nat, ln, q :: TokenTo(s, t, h, ln, q) ==> |ln| == s.n && ln[i] == Num(s, i, i, t))
  }

  predicate Has(s: State, t: TokenId, i: NodeId) {
    i < |s.nodes| && Holds(View(s.nodes[i], t))
  }

  /** What Proj shows of one node. */
  lemma Shown(s: State, t: TokenId)
    requires Shape(s)
    ensures var k := Proj(s, t);
      && WellFormed(k) && k.n == s.n == |k.slots| == |s.nodes| && (k.minted <==> Minted(s, t))
      && forall i: nat :: i < s.n ==>
           && Nums(k)[i] == Num(s, i, i, t) && (k.slots[i].pendReq <==> t in s.nodes[i].pendingRequests)
           && (k.slots[i].pendGrant <==> t in s.nodes[i].pendingGrants) && (Holds(k.slots[i]) <==> Has(s, t, i))
           && (Has(s, t, i) ==> t in s.nodes[i].priv && k.slots[i].priv == Some(s.nodes[i].priv[t]))
  {
    hide Num, WellFormed, Nums;
    ProjShape(s, t);
    forall i: nat | i < s.n
      ensures Nums(Proj(s, t))[i] == Num(s, i, i, t)
    {
      NumOfNums(s, t, i, i);
    }
  }

  /** Where the token is, in both views. */
  lemma ShownToken(s: State, t: TokenId)
    requires Shape(s)
    ensures forall h: nat, ln, q :: TokenAt(s, t, h, ln, q) <==> h < s.n && Has(s, t, h) && ln == s.nodes[h].priv[t].ln && q == s.nodes[h].priv[t].queue
    ensures forall p :: p in Proj(s, t).net && p.msg.Give? ==> TokenTo(s, t, p.dst, p.msg.data.ln, p.msg.data.queue)
    ensures forall h: nat, ln, q :: TokenTo(s, t, h, ln, q) ==> exists p :: p in Proj(s, t).net && p.msg.Give? && p.dst == h && p.msg.data.ln == ln
  {
    forall h: nat, ln, q | TokenTo(s, t, h, ln, q)
      ensures exists p :: p in Proj(s, t).net && p.msg.Give? && p.dst == h && p.msg.data.ln == ln
    {
      var p :| p in Gives(s, t) && p.dst == h && p.msg.data.ln == ln && p.msg.data.queue == q;
      assert p in Proj(s, t).net;
    }
    forall p | p in Proj(s, t).net && p.msg.Give?
      ensures TokenTo(s, t, p.dst, p.msg.data.ln, p.msg.data.queue)
    {
      assert p in Gives(s, t);
    }
  }

  /** LN covers every node, wherever the token is. */
  lemma FullLines(k: World)
    requires WInv(k)
    ensures |k.slots| == k.n
    ensures forall h: nat :: h < k.n && Holds(k.slots[h]) ==> |k.slots[h].priv.value.ln| == k.n
    ensures forall p :: p in k.net && p.msg.Give? ==> |p.msg.data.ln| == k.n
  {
    hide Bracketed, AtMostOne, HeldOk, FlightOk;
  }

  lemma PendingIs(s: State, t: TokenId)
    requires Shape(s) && WInv(Proj(s, t))
    ensures PendingIsOpen(s, t) <==> PendingOk(Proj(s, t))
  {
    hide Shape, WInv, WellFormed, Proj, Num, Nums, TokenAt, TokenTo, Minted, Has;
    var k := Proj(s, t);
    Shown(s, t);
    ShownToken(s, t);
    FullLines(k);
    if PendingOk(k) {
      forall h: nat, ln, q, i: nat | TokenTo(s, t, h, ln, q) && i < s.n && i < |ln|
        ensures t in s.nodes[i].pendingRequests <==> Num(s, i, i, t) == ln[i] + 1
      {
        var p :| p in k.net && p.msg.Give? && p.dst == h && p.msg.data.ln == ln;
        assert LineOk(k, h, ln, false);
      }
    }
    if PendingIsOpen(s, t) {
      forall h: nat | h < k.n && Holds(k.slots[h])
        ensures LineOk(k, h, k.slots[h].priv.value.ln, true)
      {
        assert TokenAt(s, t, h, s.nodes[h].priv[t].ln, s.nodes[h].priv[t].queue);
      }
    }
  }

  lemma StrandedIs(s: State, t: TokenId, i: NodeId)
    requires Shape(s) && WInv(Proj(s, t)) && i < s.n
    ensures Stranded(s, t, i) <==> Stuck(Proj(s, t), i)
  {
    hide Shape, WInv, WellFormed, Proj, Num, Nums, TokenAt, TokenTo, Minted, Has;
    var k := Proj(s, t);
    Shown(s, t);
    ShownToken(s, t);
    FullLines(k);
    if Stuck(k, i) {
      forall h: nat, ln, q | TokenTo(s, t, h, ln, q)
        ensures |ln| == s.n && ln[i] == Num(s, i, i, t)
      {
        var p :| p in k.net && p.msg.Give? && p.dst == h && p.msg.data.ln == ln;
      }
    }
    if Stranded(s, t, i) {
      forall h: nat | h < k.n && Holds(k.slots[h]) && h != i
        ensures |k.slots[h].priv.value.ln| == k.n && k.slots[h].priv.value.ln[i] == Nums(k)[i]
      {
        assert TokenAt(s, t, h, s.nodes[h].priv[t].ln, s.nodes[h].priv[t].queue);
      }
    }
  }

  // ---------------------------------------------------------------- steps

  /** The step that goes wrong: the system token does not list a monitor that this node has declared, and the node has it in
      m_pendingRequests. */
  predicate MintsWhereAsked(s: State, a: Act, t: TokenId)
    requires Shape(s) && Enabled(s, a)
  {
    a.Deliver? && a.p.msg.Give? && a.p.msg.t == System && t !in a.p.msg.data.monitors
    && var v := s.nodes[a.p.dst];
      t in v.priv && !v.priv[t].created && t in v.pendingRequests
  }

  lemma StrandsIs(s: State, a: Act, t: TokenId)
    requires SystemReady(s) && t.Monitor? && Enabled(s, a) && Possible(Proj(s, t), EventOf(s, a, t))
    ensures Strands(Proj(s, t), EventOf(s, a, t)) <==> MintsWhereAsked(s, a, t)
  {
    hide SystemReady, Registered, Shape, Row, Open, Strands, MintsWhereAsked, Possible;
    if a.Deliver? && a.p.msg.Give? && a.p.msg.t == System {
      StrandsGive(s, a.p, t);
    } else {
      StrandsNot(s, a, t);
    }
  }

  lemma StrandsNot(s: State, a: Act, t: TokenId)
    requires SystemReady(s) && t.Monitor? && Enabled(s, a) && Possible(Proj(s, t), EventOf(s, a, t))
    requires !(a.Deliver? && a.p.msg.Give? && a.p.msg.t == System)
    ensures !Strands(Proj(s, t), EventOf(s, a, t)) && !MintsWhereAsked(s, a, t)
  {
    hide SystemReady, Registered, Shape, Open;
  }

  lemma StrandsGive(s: State, p: Packet, t: TokenId)
    requires SystemReady(s) && t.Monitor? && Enabled(s, Deliver(p)) && p.msg.Give? && p.msg.t == System
    requires Possible(Proj(s, t), EventOf(s, Deliver(p), t))
    ensures Strands(Proj(s, t), EventOf(s, Deliver(p), t)) <==> MintsWhereAsked(s, Deliver(p), t)
  {
    hide SystemReady, Registered, Shape, Row, Open;
    ReadyParts(s);
    SystemLists(s, p, t);
    SlotIs(s, t, p.dst);
    Shown(s, t);
  }

  lemma StepPending(s: State, a: Act, t: TokenId)
    requires WReady(s, t) && Enabled(s, a) && PendingIsOpen(s, t)
    ensures Shape(Step(s, a)) && (PendingIsOpen(Step(s, a), t) <==> !MintsWhereAsked(s, a, t))
  {
    hide SystemReady, WInv, Mail, Step, Single, After, PendingIsOpen, MintsWhereAsked, Strands, PendingOk;
    ReadySmall(s, t);
    WSingle(Proj(s, t));
    SingleKept(s, a, t);
    StepShape(s, a);
    StepIs(s, a, t);
    WAfter(Proj(s, t), EventOf(s, a, t), s.clock);
    PendingIs(s, t);
    PendingIs(Step(s, a), t);
    PendingAfter(Proj(s, t), EventOf(s, a, t), s.clock);
    StrandsIs(s, a, t);
  }

  lemma StepStrands(s: State, a: Act, t: TokenId)
    requires WReady(s, t) && Enabled(s, a) && MintsWhereAsked(s, a, t)
    ensures Shape(Step(s, a)) && a.p.dst < Step(s, a).n && Stranded(Step(s, a), t, a.p.dst)
  {
    hide SystemReady, WInv, Mail, Step, Single, After, Stranded, MintsWhereAsked, Strands, Stuck;
    ReadySmall(s, t);
    WSingle(Proj(s, t));
    SingleKept(s, a, t);
    StepShape(s, a);
    StepIs(s, a, t);
    WAfter(Proj(s, t), EventOf(s, a, t), s.clock);
    StrandsIs(s, a, t);
    SettledThere(s, a, t);
    StrandedIsStuck(Proj(s, t), EventOf(s, a, t), s.clock);
    StuckRange(Proj(Step(s, a), t), a.p.dst);
    StrandedIs(Step(s, a), t, a.p.dst);
  }

  lemma SettledThere(s: State, a: Act, t: TokenId)
    requires Shape(s) && Enabled(s, a) && t.Monitor? && MintsWhereAsked(s, a, t)
    ensures EventOf(s, a, t) == Settles(a.p.dst)
  {
  }

  /** A stranded node keeps its entry and its number, and never has the token again once it has not. */
  lemma StepStays(s: State, a: Act, t: TokenId, i: NodeId)
    requires WReady(s, t) && Enabled(s, a) && i < s.n && Stranded(s, t, i)
    ensures var s' := Step(s, a);
      && Shape(s') && s'.n == s.n && Stranded(s', t, i) && Num(s', i, i, t) == Num(s, i, i, t) && (!Has(s, t, i) ==> !Has(s', t, i))
      && (!Has(s, t, i) && t in s.nodes[i].pendingGrants ==> t in s'.nodes[i].pendingGrants)
  {
    hide SystemReady, WInv, Mail, Step, Single, After, Stranded, Stuck, Has, Num, Nums, Shape, Enabled, Possible;
    ReadySmall(s, t);
    WSingle(Proj(s, t));
    SingleKept(s, a, t);
    StepShape(s, a);
    StepIs(s, a, t);
    WAfter(Proj(s, t), EventOf(s, a, t), s.clock);
    Shown(s, t);
    Shown(Step(s, a), t);
    StrandedIs(s, t, i);
    StuckAfter(Proj(s, t), EventOf(s, a, t), s.clock, i);
    StuckRange(Proj(Step(s, a), t), i);
    StrandedIs(Step(s, a), t, i);
  }

  // ---------------------------------------------------------------- runs

  ghost predicate MintsWhereAskedIn(ss: seq<State>, acts: seq<Act>, j: nat, t: TokenId) {
    j < |acts| && j < |ss| && Shape(ss[j]) && Enabled(ss[j], acts[j]) && MintsWhereAsked(ss[j], acts[j], t)
  }

  ghost predicate PendingOpenIn(ss: seq<State>, j: nat, t: TokenId) {
    j < |ss| && Shape(ss[j]) && PendingIsOpen(ss[j], t)
  }

  /** In any run, up to step k: m_pendingRequests has stood for the open requests in every state if and only if no step has
      created the monitor at a node that had it there. */
  lemma {:induction false} PendingExactly(informed: bool, ss: seq<State>, acts: seq<Act>, k: nat, t: TokenId)
    requires Run(informed, ss, acts) && k < |ss| && t.Monitor?
    ensures (forall j: nat :: j <= k ==> PendingOpenIn(ss, j, t)) <==> (forall j: nat :: j < k ==> !MintsWhereAskedIn(ss, acts, j, t))
  {
    hide Run, WReady, Step, Bounded, Informed, Shape, Enabled, PendingIsOpen, MintsWhereAsked;
    RunLength(informed, ss, acts);
    RunShape(informed, ss, acts, k);
    if k == 0 {
      RunStart(informed, ss, acts);
      InitPending(ss[0].n, ss[0].bound, t);
    } else {
      var last: nat := k - 1;
      PendingExactly(informed, ss, acts, last, t);
      RunWReady(informed, ss, acts, last, t);
      RunStep(informed, ss, acts, last);
      if PendingIsOpen(ss[last], t) {
        StepPending(ss[last], acts[last], t);
      }
      assert PendingOpenIn(ss, last, t) ==> (PendingOpenIn(ss, last + 1, t) <==> !MintsWhereAskedIn(ss, acts, last, t));
    }
  }

  lemma InitPending(n: nat, bound: TokenId -> set<Str>, t: TokenId)
    requires n > 0 && t.Monitor?
    ensures Shape(Init(n, bound)) && PendingIsOpen(Init(n, bound), t)
  {
    InitShape(n, bound);
  }

  lemma ByDelivery(ss: seq<State>, acts: seq<Act>, j: nat, t: TokenId)
    requires MintsWhereAskedIn(ss, acts, j, t)
    ensures acts[j].Deliver?
  {
  }

  /** From such a step on its node is stranded. */
  lemma StrandedFrom(informed: bool, ss: seq<State>, acts: seq<Act>, j: nat, k: nat, t: TokenId)
    requires Run(informed, ss, acts) && j < k < |ss| && t.Monitor? && MintsWhereAskedIn(ss, acts, j, t)
    ensures Shape(ss[k]) && acts[j].p.dst < ss[k].n && Stranded(ss[k], t, acts[j].p.dst)
  {
    hide Run, WReady, Step, Bounded, Informed, Shape, Enabled, Stranded, MintsWhereAsked;
    ByDelivery(ss, acts, j, t);
    RunLength(informed, ss, acts);
    RunWReady(informed, ss, acts, j, t);
    RunStep(informed, ss, acts, j);
    StepStrands(ss[j], acts[j], t);
    StrandedStays(informed, ss, acts, j + 1, k, t, acts[j].p.dst);
  }

  /** Whoever is stranded stays so and asks no more; once the token is elsewhere it never comes back, and whoever waits
      waits for ever. */
  lemma {:induction false} StrandedStays(informed: bool, ss: seq<State>, acts: seq<Act>, j: nat, k: nat, t: TokenId, i: NodeId)
    requires Run(informed, ss, acts) && j <= k < |ss| && t.Monitor? && Shape(ss[j]) && i < ss[j].n && Stranded(ss[j], t, i)
    ensures Shape(ss[k]) && ss[k].n == ss[j].n && Stranded(ss[k], t, i) && Num(ss[k], i, i, t) == Num(ss[j], i, i, t)
    ensures !Has(ss[j], t, i) ==> !Has(ss[k], t, i) && !Locked(ss[k], i, t)
    ensures !Has(ss[j], t, i) && t in ss[j].nodes[i].pendingGrants ==> t in ss[k].nodes[i].pendingGrants
  {
    hide Run, WReady, Step, Bounded, Informed, Shape, Enabled, Stranded, Num;
    RunShape(informed, ss, acts, k);
    RunShape(informed, ss, acts, j);
    if j < k {
      var last: nat := k - 1;
      RunLength(informed, ss, acts);
      StrandedStays(informed, ss, acts, j, last, t, i);
      RunWReady(informed, ss, acts, last, t);
      RunStep(informed, ss, acts, last);
      StepStays(ss[last], acts[last], t, i);
    }
    LockedHas(ss[k], t, i);
  }

  lemma LockedHas(s: State, t: TokenId, i: NodeId)
    requires Shape(s) && i < s.n
    ensures i < |s.nodes| && (Locked(s, i, t) ==> Has(s, t, i))
  {
  }

  /** Under H no step goes wrong like this. */
  lemma InformedNeverStrands(ss: seq<State>, acts: seq<Act>, k: nat, t: TokenId)
    requires Run(true, ss, acts) && k < |acts| && t.Monitor?
    ensures !MintsWhereAskedIn(ss, acts, k, t)
  {
    hide Run, Barrier, Coupled, Inv, Single;
    RunLength(true, ss, acts);
    RunSound(ss, acts, k);
    RunShape(true, ss, acts, k);
    UncreatedUnasked(ss[k], t);
  }

  lemma UncreatedUnasked(s: State, t: TokenId)
    requires Shape(s) && UserInv(Proj(s, t), s.bound(t))
    ensures forall i: nat :: i < s.n && t in s.nodes[i].priv && !s.nodes[i].priv[t].created ==> t !in s.nodes[i].pendingRequests
  {
    hide Inv;
    var k := Proj(s, t);
    forall i: nat | i < s.n && t in s.nodes[i].priv && !s.nodes[i].priv[t].created
      ensures t !in s.nodes[i].pendingRequests
    {
      assert UserSlot(k.slots[i], s.n, k.up[i], k.minted, s.bound(t));
    }
  }

  // ---------------------------------------------------------------- a quiet cluster

  /** Without H: when no step has cleared the owned flag, minted carelessly, or minted where the monitor was asked for, then
      once nothing is on its way and nobody is inside everybody has been served. */
  lemma QuietMeansServedAlways(informed: bool, ss: seq<State>, acts: seq<Act>, k: nat, t: TokenId, i: NodeId)
    requires Run(informed, ss, acts) && k < |ss| && t.Monitor? && Shape(ss[k]) && i < ss[k].n && Minted(ss[k], t)
    requires forall p :: p in ss[k].net ==> !About(p.msg, t)
    requires forall h: nat :: h < ss[k].n ==> !Locked(ss[k], h, t)
    requires forall j: nat :: j < k ==> !ClearsIn(ss, acts, j, t) && !CarelessIn(ss, acts, j, t) && !MintsWhereAskedIn(ss, acts, j, t)
    ensures t !in ss[k].nodes[i].pendingRequests
    ensures exists h: nat, ln :: TokenAt(ss[k], t, h, ln, []) && |ln| == ss[k].n && Num(ss[k], i, i, t) == ln[i]
  {
    hide Run, Conserved, NoRequestLost, PendingIsOpen, ClearsIn, CarelessIn, MintsWhereAskedIn, Shape, WInv, Mail, Minted, Num, TokenAt, Locked;
    var s := ss[k];
    ConservedExactly(informed, ss, acts, k, t);
    LosesNoneExactly(informed, ss, acts, k, t);
    PendingExactly(informed, ss, acts, k, t);
    RunW(informed, ss, acts, k, t);
    assert LosesNone(ss, k, t) && PendingOpenIn(ss, k, t);
    var h := OwnedSomewhere(s, t);
    var ln, q := s.nodes[h].priv[t].ln, s.nodes[h].priv[t].queue;
    OrderlyAlways(informed, ss, acts, k, t, h, ln, q);
    IdleServesAll(s, t, h, i);
  }

  lemma OwnedSomewhere(s: State, t: TokenId) returns (h: NodeId)
    requires Shape(s) && Conserved(s, t) && Minted(s, t) && forall p :: p in s.net ==> !About(p.msg, t)
    ensures h < s.n == |s.nodes| && t in s.nodes[h].priv && TokenAt(s, t, h, s.nodes[h].priv[t].ln, s.nodes[h].priv[t].queue)
  {
    hide Shape, Minted;
    assert Gives(s, t) == {};
    assert Owners(s, t) != {};
    h :| h in Owners(s, t);
    Shown(s, t);
  }

  /** An idle owner has served its own requests, and lost none of the others. */
  lemma IdleServesAll(s: State, t: TokenId, h: NodeId, i: NodeId)
    requires Shape(s) && WInv(Proj(s, t)) && NoRequestLost(s, t) && PendingIsOpen(s, t) && h < s.n && i < s.n && |s.nodes| == s.n
    requires t in s.nodes[h].priv && TokenAt(s, t, h, s.nodes[h].priv[t].ln, []) && s.nodes[h].priv[t].queue == []
    requires Orderly(s, t, h, s.nodes[h].priv[t].ln, []) && !Locked(s, h, t)
    requires forall p :: p in s.net ==> !About(p.msg, t)
    ensures t !in s.nodes[i].pendingRequests && Num(s, i, i, t) == s.nodes[h].priv[t].ln[i]
  {
    hide Shape, WInv, Proj, Num, Nums;
    Shown(s, t);
    var ln := s.nodes[h].priv[t].ln;
    if i == h {
      IdleFits(Proj(s, t), h);
    } else {
      assert !LookedAfter(s, t, h, [], true, i);
    }
  }
}
