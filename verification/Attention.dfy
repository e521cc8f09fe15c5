/** Requests reach everybody, and an idle owner has answered all it knows of, but for one way of creating a monitor. */
module Attention {
  import opened Basics
  import opened Token
  import opened Slot
  import opened World
  import opened UserEvents
  import opened Refinement
  import opened Brackets

  // ---------------------------------------------------------------- requests on their way

  ghost predicate Sent(k: World, i: NodeId, j: NodeId, num: nat) {
    exists p :: p in k.net && p.msg.Request? && p.src == i && p.dst == j && p.msg.num == num
  }

  /** Everyone knows i's latest request, or it is on its way there. */
  ghost predicate Posted(k: World)
    requires WellFormed(k)
  {
    forall i: nat, j: nat :: i < k.n && j < k.n && i != j ==> Row(k.slots[j], k.n)[i] == Nums(k)[i] || Sent(k, i, j, Nums(k)[i])
  }

  predicate SameRequest(p: Packet, q: Packet) {
    p.msg.Request? && q.msg.Request? && p.src == q.src && p.dst == q.dst && p.msg.num == q.msg.num
  }

  /** No request is on its way twice, or on its way to where it is known. */
  ghost predicate PostedOnce(k: World)
    requires WellFormed(k)
  {
    && (forall p, q :: p in k.net && q in k.net && SameRequest(p, q) ==> p == q)
    && (forall p :: p in k.net && p.msg.Request? ==> p.msg.num != Row(k.slots[p.dst], k.n)[p.src])
  }

  ghost predicate Mail(k: World) {
    WellFormed(k) && Posted(k) && PostedOnce(k)
  }

  /** How a handler that is not about a request changes its node's numbers: not at all, or by making the next request. */
  ghost predicate Numbering(k: World, i: NodeId, s: Slot, outs: set<Out>)
    requires WellFormed(k) && i < k.n
  {
    var r := Row(k.slots[i], k.n);
    || (Row(s, k.n) == r && forall o :: o in outs ==> !o.msg.Request?)
    || (r[i] < U32_MAX && Row(s, k.n) == r[i := r[i] + 1] && outs == Broadcast(Others(k.n, i), Request(k.t, r[i] as int + 1)))
  }

  lemma MailKept(k: World, k': World, i: NodeId, s: Slot, used: set<Packet>, stamp: nat, outs: set<Out>)
    requires Mail(k) && Bracketed(k) && i < k.n && WellFormed(k') && Numbering(k, i, s, outs) && (forall p :: p in used ==> !p.msg.Request?)
    requires k' == Apply(k, i, s, used, stamp, outs).(minted := k'.minted)
    ensures Mail(k')
  {
    if Row(s, k.n) == Row(k.slots[i], k.n) && forall o :: o in outs ==> !o.msg.Request? {
      MailQuiet(k, k', i, s, used, stamp, outs);
    } else {
      MailAsked(k, k', i, s, used, stamp, outs);
    }
  }

  lemma NetInRange(k: World)
    requires WellFormed(k)
    ensures forall p :: p in k.net ==> p.src < k.n && p.dst < k.n
  {
  }

  lemma SameNums(k: World, k': World, i: NodeId, s: Slot)
    requires WellFormed(k) && WellFormed(k') && i < k.n && k'.n == k.n && k'.slots == k.slots[i := s]
    ensures Nums(k') == Nums(k)[i := Row(s, k.n)[i]]
  {
  }

  lemma MailQuiet(k: World, k': World, i: NodeId, s: Slot, used: set<Packet>, stamp: nat, outs: set<Out>)
    requires Mail(k) && i < k.n && WellFormed(k') && (forall p :: p in used ==> !p.msg.Request?)
    requires Row(s, k.n) == Row(k.slots[i], k.n) && forall o :: o in outs ==> !o.msg.Request?
    requires k' == Apply(k, i, s, used, stamp, outs).(minted := k'.minted)
    ensures Mail(k')
  {
    SameNums(k, k', i, s);
    forall p
      ensures p in k'.net && p.msg.Request? <==> p in k.net && p.msg.Request?
    {
      if p in Stamped(i, stamp, outs) {
        OutIn(i, stamp, outs, p);
      }
    }
    assert Nums(k') == Nums(k);
    assert forall x: nat, y: nat, num: nat :: Sent(k, x, y, num) ==> Sent(k', x, y, num);
  }

  lemma MailAsked(k: World, k': World, i: NodeId, s: Slot, used: set<Packet>, stamp: nat, outs: set<Out>)
    requires Mail(k) && Bracketed(k) && i < k.n && WellFormed(k') && (forall p :: p in used ==> !p.msg.Request?)
    requires var r := Row(k.slots[i], k.n);
      r[i] < U32_MAX && Row(s, k.n) == r[i := r[i] + 1] && outs == Broadcast(Others(k.n, i), Request(k.t, r[i] as int + 1))
    requires k' == Apply(k, i, s, used, stamp, outs).(minted := k'.minted)
    ensures Mail(k')
  {
    hide WellFormed, Bracketed, Posted, PostedOnce, Row, Apply;
    AskedNet(k, k', i, s, used, stamp, outs);
    AskedPosted(k, k', i, s, stamp);
    AskedOnce(k, k', i, s, stamp);
  }

  /** The world after node i has made its next request, as far as requests and numbers go. */
  ghost predicate HasAsked(k: World, k': World, i: NodeId, s: Slot, stamp: nat) {
    && WellFormed(k) && WellFormed(k') && k'.n == k.n && i < k.n && k'.slots == k.slots[i := s]
    && var r := Row(k.slots[i], k.n);
      && r[i] < U32_MAX && Row(s, k.n) == r[i := r[i] + 1] && Nums(k') == Nums(k)[i := r[i] + 1] && Nums(k)[i] == r[i]
      && forall p :: p in k'.net && p.msg.Request? <==>
           (p in k.net && p.msg.Request?) || (p.dst in Others(k.n, i) && p == Packet(i, p.dst, stamp, Request(k.t, r[i] as int + 1)))
  }

  lemma AskedNet(k: World, k': World, i: NodeId, s: Slot, used: set<Packet>, stamp: nat, outs: set<Out>)
    requires Mail(k) && Bracketed(k) && i < k.n && WellFormed(k') && (forall p :: p in used ==> !p.msg.Request?)
    requires var r := Row(k.slots[i], k.n);
      r[i] < U32_MAX && Row(s, k.n) == r[i := r[i] + 1] && outs == Broadcast(Others(k.n, i), Request(k.t, r[i] as int + 1))
    requires k' == Apply(k, i, s, used, stamp, outs).(minted := k'.minted)
    ensures HasAsked(k, k', i, s, stamp)
  {
    hide SlotOk, Posted, PostedOnce, Bracketed;
    SameNums(k, k', i, s);
    var num: U32 := Row(k.slots[i], k.n)[i] + 1;
    forall p
      ensures p in k'.net && p.msg.Request? <==>
                (p in k.net && p.msg.Request?) || (p.dst in Others(k.n, i) && p == Packet(i, p.dst, stamp, Request(k.t, num)))
    {
      if p in Stamped(i, stamp, outs) {
        OutIn(i, stamp, outs, p);
      }
      if p.dst in Others(k.n, i) && p == Packet(i, p.dst, stamp, Request(k.t, num)) {
        assert Out(p.dst, p.msg) in outs;
      }
    }
  }

  lemma AskedPosted(k: World, k': World, i: NodeId, s: Slot, stamp: nat)
    requires HasAsked(k, k', i, s, stamp) && Posted(k)
    ensures Posted(k')
  {
    hide WellFormed, Row;
    RowsSized(k);
    RowsSized(k');
    var num := Nums(k)[i] + 1;
    forall x: nat, y: nat | x < k.n && y < k.n && x != y
      ensures Row(k'.slots[y], k.n)[x] == Nums(k')[x] || Sent(k', x, y, Nums(k')[x])
    {
      if x == i {
        assert Packet(i, y, stamp, Request(k.t, num)) in k'.net;
      } else {
        assert Row(k'.slots[y], k.n)[x] == Row(k.slots[y], k.n)[x];
        assert Sent(k, x, y, Nums(k)[x]) ==> Sent(k', x, y, Nums(k)[x]);
      }
    }
  }

  lemma RowsSized(k: World)
    requires WellFormed(k)
    ensures |k.slots| == k.n && forall i: nat :: i < k.n ==> |Row(k.slots[i], k.n)| == k.n
  {
  }

  lemma AskedOnce(k: World, k': World, i: NodeId, s: Slot, stamp: nat)
    requires HasAsked(k, k', i, s, stamp) && PostedOnce(k) && Bracketed(k)
    ensures PostedOnce(k')
  {
    hide SlotOk, Row;
    NetInRange(k);
    NetInRange(k');
    forall p | p in k'.net && p.msg.Request?
      ensures p.msg.num != Row(k'.slots[p.dst], k.n)[p.src]
    {
      assert p in k.net ==> p.src != p.dst;
      assert Row(k.slots[p.dst], k.n)[p.src] <= Nums(k)[p.src];
    }
  }

  /** A request is noted where it arrives. */
  lemma MailHeard(k: World, k': World, p: Packet, s: Slot, stamp: nat, outs: set<Out>)
    requires Mail(k) && Bracketed(k) && p in k.net && p.msg.Request? && WellFormed(k') && forall o :: o in outs ==> !o.msg.Request?
    requires var r := Row(k.slots[p.dst], k.n); Row(s, k.n) == r[p.src := if r[p.src] < p.msg.num then p.msg.num else r[p.src]]
    requires k' == Apply(k, p.dst, s, {p}, stamp, outs).(minted := k'.minted)
    ensures Mail(k')
  {
    hide WellFormed, Bracketed, Posted, PostedOnce, Row, Apply;
    HeardNet(k, k', p, s, stamp, outs);
    HeardPosted(k, k', p, s);
    HeardOnce(k, k', p, s);
  }

  /** The world after p was heard, as far as requests and numbers go. */
  ghost predicate HasHeard(k: World, k': World, p: Packet, s: Slot) {
    && WellFormed(k) && WellFormed(k') && k'.n == k.n && p in k.net && p.msg.Request? && k'.slots == k.slots[p.dst := s] && Nums(k') == Nums(k)
    && (var r := Row(k.slots[p.dst], k.n); Row(s, k.n) == r[p.src := if r[p.src] < p.msg.num then p.msg.num else r[p.src]])
    && (forall q :: q in k'.net && q.msg.Request? <==> q in k.net && q.msg.Request? && q != p)
  }

  lemma HeardNet(k: World, k': World, p: Packet, s: Slot, stamp: nat, outs: set<Out>)
    requires Mail(k) && Bracketed(k) && p in k.net && p.msg.Request? && WellFormed(k') && forall o :: o in outs ==> !o.msg.Request?
    requires var r := Row(k.slots[p.dst], k.n); Row(s, k.n) == r[p.src := if r[p.src] < p.msg.num then p.msg.num else r[p.src]]
    requires k' == Apply(k, p.dst, s, {p}, stamp, outs).(minted := k'.minted)
    ensures HasHeard(k, k', p, s)
  {
    hide SlotOk, Posted, PostedOnce;
    SameNums(k, k', p.dst, s);
    assert Nums(k') == Nums(k);
    forall q
      ensures q in k'.net && q.msg.Request? <==> q in k.net && q.msg.Request? && q != p
    {
      if q in Stamped(p.dst, stamp, outs) {
        OutIn(p.dst, stamp, outs, q);
      }
    }
  }

  lemma HeardPosted(k: World, k': World, p: Packet, s: Slot)
    requires HasHeard(k, k', p, s) && Posted(k) && Bracketed(k)
    ensures Posted(k')
  {
    hide SlotOk, PacketOk, Row;
    forall x: nat, y: nat | x < k.n && y < k.n && x != y
      ensures Row(k'.slots[y], k.n)[x] == Nums(k')[x] || Sent(k', x, y, Nums(k')[x])
    {
      if Row(k.slots[y], k.n)[x] != Nums(k)[x] {
        var q :| q in k.net && q.msg.Request? && q.src == x && q.dst == y && q.msg.num == Nums(k)[x];
        assert q == p || q in k'.net;
      }
    }
  }

  lemma HeardOnce(k: World, k': World, p: Packet, s: Slot)
    requires HasHeard(k, k', p, s) && PostedOnce(k)
    ensures PostedOnce(k')
  {
    hide SlotOk, Row;
    NetInRange(k);
    forall q | q in k'.net && q.msg.Request?
      ensures q.msg.num != Row(k'.slots[q.dst], k.n)[q.src]
    {
      assert q in k.net && q != p && (SameRequest(p, q) ==> p == q);
    }
  }

  // ---------------------------------------------------------------- every event

  lemma LockNumbers(c: Ctx, t: TokenId, s: Slot)
    requires SlotOk(c, s) && c.peers == Others(c.n, c.id) && Row(s, c.n)[c.id] < U32_MAX
    ensures var (s', outs) := RequestLock(c, t, s);
      var r := Row(s, c.n);
      || (Row(s', c.n) == r && outs == {})
      || (Row(s', c.n) == r[c.id := r[c.id] + 1] && outs == Broadcast(Others(c.n, c.id), Request(t, r[c.id] as int + 1)))
  {
  }

  lemma AdoptNumbers(c: Ctx, t: TokenId, s: Slot, b: bool)
    requires SlotOk(c, s) && c.peers == Others(c.n, c.id) && Row(s, c.n)[c.id] < U32_MAX
    ensures var (s', outs) := Adopt(c, t, s, b);
      var r := Row(s, c.n);
      || (Row(s', c.n) == r && outs == {})
      || (Row(s', c.n) == r[c.id := r[c.id] + 1] && outs == Broadcast(Others(c.n, c.id), Request(t, r[c.id] as int + 1)))
  {
  }

  lemma UnlockNumbers(c: Ctx, t: TokenId, s: Slot)
    requires SlotOk(c, s)
    ensures Row(RequestUnlock(c, t, s).0, c.n) == Row(s, c.n) && forall o :: o in RequestUnlock(c, t, s).1 ==> !o.msg.Request?
  {
    hide Release;
    if s.priv.Some? && s.priv.value.locked {
      ReleaseFrame(s.priv.value.(locked := false), c.id, c.n);
    }
  }

  lemma UpNumbers(c: Ctx, t: TokenId, s: Slot)
    requires SlotOk(c, s) && !s.pendReq
    ensures Row(ComeUp(c, t, s).0, c.n) == Row(s, c.n) && ComeUp(c, t, s).1 == {}
  {
  }

  lemma MailAfter(k: World, e: Ev, stamp: nat)
    requires WInv(k) && Mail(k) && Small(k) && Possible(k, e) && WellFormed(After(k, e, stamp))
    ensures Mail(After(k, e, stamp))
  {
    hide WInv, Bracketed, Mail, RequestLock, RequestUnlock, GetRequest, Adopt, ComeUp, Row, Numbering, WellFormed;
    MailShape(k);
    AtInRange(k, e);
    var i := At(e);
    var (s, outs) := Effect(k, e);
    WParts(k, i);
    if e.Hears? {
      MailHears(k, e.p, stamp);
    } else {
      EffectNumbers(k, e);
      var k0 := if e.Rises? then k.(up := k.up[i := true]) else k;
      if e.Rises? {
        MailUp(k, i);
        NumberingUp(k, i, s, outs);
      }
      MailKept(k0, After(k, e, stamp), i, s, Uses(e), stamp, outs);
    }
  }

  lemma AtInRange(k: World, e: Ev)
    requires WellFormed(k) && Possible(k, e)
    ensures At(e) < k.n
  {
  }

  lemma MailHears(k: World, p: Packet, stamp: nat)
    requires Mail(k) && Bracketed(k) && Possible(k, Hears(p)) && WellFormed(k) && WellFormed(After(k, Hears(p), stamp))
    ensures Mail(After(k, Hears(p), stamp))
  {
    hide Mail, Bracketed, GetRequest, Row, WellFormed;
    HearNumbers(k, p);
    var (s, outs) := Effect(k, Hears(p));
    MailHeard(k, After(k, Hears(p), stamp), p, s, stamp, outs);
  }

  lemma EffectNumbers(k: World, e: Ev)
    requires WInv(k) && Small(k) && Possible(k, e) && WellFormed(k) && At(e) < k.n && !e.Hears?
    ensures var (s, outs) := Effect(k, e); Numbering(k, At(e), s, outs)
  {
    hide WInv, Bracketed, RequestLock, RequestUnlock, GetRequest, Adopt, ComeUp, Numbering;
    var i := At(e);
    var u := k.slots[i];
    WParts(k, i);
    match e {
      case Locks(_) => LockNumbers(k.C(i), k.t, u);
      case Settles(_) => AdoptNumbers(k.C(i), k.t, u, k.minted);
      case _ => SilentNumbers(k, e);
    }
    NumberingIs(k, i, Effect(k, e).0, Effect(k, e).1);
  }

  lemma NumberingIs(k: World, i: NodeId, s: Slot, outs: set<Out>)
    requires WellFormed(k) && i < k.n
    requires var r := Row(k.slots[i], k.n);
      || (Row(s, k.n) == r && forall o :: o in outs ==> !o.msg.Request?)
      || (r[i] < U32_MAX && Row(s, k.n) == r[i := r[i] + 1] && outs == Broadcast(Others(k.n, i), Request(k.t, r[i] as int + 1)))
    ensures Numbering(k, i, s, outs)
  {
  }

  lemma SilentNumbers(k: World, e: Ev)
    requires WInv(k) && Possible(k, e) && WellFormed(k) && At(e) < k.n && !e.Hears? && !e.Locks? && !e.Settles?
    ensures Row(Effect(k, e).0, k.n) == Row(k.slots[At(e)], k.n) && forall o :: o in Effect(k, e).1 ==> !o.msg.Request?
  {
    hide WInv, Bracketed, RequestUnlock, ComeUp, RequestLock, GetRequest, Adopt;
    var i := At(e);
    WParts(k, i);
    match e {
      case Unlocks(_) => UnlockNumbers(k.C(i), k.t, k.slots[i]);
      case Rises(_) => UpNumbers(k.C(i).(up := true), k.t, k.slots[i]);
      case _ =>
    }
  }

  lemma NumberingUp(k: World, i: NodeId, s: Slot, outs: set<Out>)
    requires WellFormed(k) && i < k.n && Numbering(k, i, s, outs)
    ensures var k' := k.(up := k.up[i := true]); WellFormed(k') ==> Numbering(k', i, s, outs)
  {
  }

  lemma MailShape(k: World)
    requires Mail(k)
    ensures WellFormed(k) && 0 < k.n
  {
  }

  lemma HearNumbers(k: World, p: Packet)
    requires WellFormed(k) && p in k.net && p.msg.Request?
    ensures var (s, outs) := GetRequest(k.C(p.dst), k.t, k.slots[p.dst], p.src, p.msg.num, {});
      var r := Row(k.slots[p.dst], k.n);
      && Row(s, k.n) == r[p.src := if r[p.src] < p.msg.num then p.msg.num else r[p.src]]
      && forall o :: o in outs ==> !o.msg.Request?
  {
    HeardRow(k.C(p.dst), k.slots[p.dst], p.src, p.msg.num);
  }

  lemma MailUp(k: World, i: NodeId)
    requires WellFormed(k) && Mail(k) && Bracketed(k) && i < k.n
    ensures var k' := k.(up := k.up[i := true]); WellFormed(k') && Mail(k') && Bracketed(k')
  {
    var k' := k.(up := k.up[i := true]);
    assert WellFormed(k') by {
      assert forall x: nat :: x < k.n ==> SlotOk(k'.C(x), k'.slots[x]) == SlotOk(k.C(x), k.slots[x]);
      assert forall p :: PacketOk(k', p) == PacketOk(k, p);
    }
    hide WellFormed, Row;
    assert Nums(k') == Nums(k);
    assert forall x: nat, y: nat, num: nat :: Sent(k, x, y, num) ==> Sent(k', x, y, num);
  }

  // ---------------------------------------------------------------- idle owners

  /** An owner outside its critical section knows of no request that the token has not served. */
  ghost predicate Attentive(k: World) {
    forall i: nat :: i < |k.slots| ==> AttentiveAt(k.slots[i])
  }

  predicate AttentiveAt(s: Slot) {
    s.priv.Some? && s.priv.value.owned && !s.priv.value.locked ==>
      forall x: nat :: x < |s.priv.value.rn| && x < |s.priv.value.ln| ==> s.priv.value.rn[x] <= s.priv.value.ln[x]
  }

  /** The event creates the monitor at a node whose process is not waiting, but which has heard requests for it. */
  ghost predicate Careless(k: World, e: Ev)
    requires Possible(k, e)
  {
    e.Settles? && Creates(k, e) && !k.slots[e.i].pendGrant
    && exists x: nat :: x < k.n && Row(k.slots[e.i], k.n)[x] > 0
  }

  lemma AttentiveAfter(k: World, e: Ev, stamp: nat)
    requires WInv(k) && Small(k) && Possible(k, e) && Attentive(k)
    requires e.Receives? ==> Accepts(k.slots[e.p.dst]) && k.slots[e.p.dst].pub.Some?
    ensures Attentive(After(k, e, stamp)) <==> !Careless(k, e)
  {
    hide WInv, Effect, AttentiveAt, Careless, Creates;
    InShape(k);
    var k' := After(k, e, stamp);
    EffectAttentive(k, e);
    var i := At(e);
    assert i < k.n && k'.slots[i] == Effect(k, e).0;
    assert forall x: nat :: x < k.n && x != i ==> k'.slots[x] == k.slots[x];
  }

  lemma InShape(k: World)
    requires WInv(k)
    ensures WellFormed(k) && Single(k) && 0 < k.n
  {
  }

  lemma EffectAttentive(k: World, e: Ev)
    requires WInv(k) && Small(k) && Possible(k, e) && At(e) < k.n && AttentiveAt(k.slots[At(e)])
    requires e.Receives? ==> Accepts(k.slots[e.p.dst]) && k.slots[e.p.dst].pub.Some?
    ensures AttentiveAt(Effect(k, e).0) <==> !Careless(k, e)
  {
    hide WInv, Release, Fit, AtMostOne, Bracketed, RequestUnlock, GetRequest, Adopt;
    var i := At(e);
    WParts(k, i);
    WaitsAt(k, i);
    match e {
      case Unlocks(_) => UnlockAttentive(k, i);
      case Hears(p) => HearAttentive(k, p);
      case Receives(p) => FlightFits(k, p);
      case Settles(_) => AdoptAttentive(k, i);
      case _ =>
    }
  }

  lemma AdoptAttentive(k: World, i: NodeId)
    requires WInv(k) && Possible(k, Settles(i)) && AttentiveAt(k.slots[i])
    ensures AttentiveAt(Effect(k, Settles(i)).0) <==> !Careless(k, Settles(i))
  {
    hide WInv, Bracketed, AtMostOne;
    WParts(k, i);
    WaitsAt(k, i);
    var u := k.slots[i];
    if !k.minted && Open(u) && !u.pendGrant {
      var r := Row(u, k.n);
      assert r == u.priv.value.rn;
      assert Careless(k, Settles(i)) <==> exists x: nat :: x < k.n && r[x] > 0;
    }
  }

  /** An idle owner either answers a request or has served it before. */
  lemma HearAttentive(k: World, p: Packet)
    requires WInv(k) && Small(k) && Possible(k, Hears(p)) && p.dst < k.n && AttentiveAt(k.slots[p.dst])
    ensures AttentiveAt(Effect(k, Hears(p)).0)
  {
    hide WInv, AtMostOne, SlotW, Fit, Bracketed, WellFormed, Row, GetRequest;
    var i := p.dst;
    MailInRange(k, p);
    var u := k.slots[i];
    if Holds(u) {
      HeldFits(k, i);
      FitBounds(Nums(k), Waits(k), i, u.priv.value.ln, u.priv.value.queue);
      SmallNums(k);
      HeardAttentive(k.C(i), k.t, u, p.src, p.msg.num);
    } else {
      HeardIdle(k.C(i), k.t, u, p.src, p.msg.num);
    }
  }

  lemma MailInRange(k: World, p: Packet)
    requires WInv(k) && p in k.net && p.msg.Request?
    ensures WellFormed(k) && p.src < k.n && p.dst < k.n && SlotOk(k.C(p.dst), k.slots[p.dst]) && p.msg.num <= Nums(k)[p.src]
  {
  }

  lemma FitBounds(nums: seq<nat>, waits: seq<bool>, h: NodeId, ln: seq<nat>, q: seq<NodeId>)
    requires |nums| == |waits| && Fit(nums, waits, h, ln, q)
    ensures |ln| == |nums| && forall x: nat :: x < |nums| ==> ln[x] <= nums[x] <= ln[x] + 1
  {
  }

  lemma HeardAttentive(c: Ctx, t: TokenId, s: Slot, from: NodeId, num: U32)
    requires SlotOk(c, s) && from < c.n && Holds(s) && AttentiveAt(s) && |s.priv.value.ln| == c.n
    requires s.priv.value.ln[from] < U32_MAX && num <= s.priv.value.ln[from] + 1
    ensures AttentiveAt(GetRequest(c, t, s, from, num, {}).0)
  {
  }

  lemma HeardIdle(c: Ctx, t: TokenId, s: Slot, from: NodeId, num: U32)
    requires SlotOk(c, s) && from < c.n && !Holds(s)
    ensures AttentiveAt(GetRequest(c, t, s, from, num, {}).0)
  {
  }

  /** After a release that leaves the token at home everything the owner knows of is served. */
  lemma UnlockAttentive(k: World, i: NodeId)
    requires WInv(k) && Small(k) && i < k.n && AttentiveAt(k.slots[i])
    ensures AttentiveAt(RequestUnlock(k.C(i), k.t, k.slots[i]).0)
  {
    hide WInv, Release, Bracketed, AtMostOne;
    WParts(k, i);
    var u := k.slots[i];
    if u.priv.Some? && u.priv.value.locked {
      var p := u.priv.value.(locked := false);
      HeldFits(k, i);
      SmallNums(k);
      ReleaseFrame(p, i, k.n);
      var r := Release(p, i);
      forall x: nat | x < k.n && r.queue == []
        ensures r.rn[x] <= r.ln[x]
      {
        ReleaseQueue(p, i, k.n, x);
      }
    }
  }
}
