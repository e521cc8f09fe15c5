/** What each event of the cluster loop does to one token: it keeps the invariant and moves the token along its queue. */
module Events {
  import opened Basics
  import opened Token
  import opened Slot
  import opened World
  import opened Refinement

  /** The token stays or goes on its way: its queue only grows at the back, and is consumed from the front. */
  ghost predicate Onward(p: SK.Place, p': SK.Place) {
    match p
    case Nowhere => p'.Nowhere? || (p'.At? && p'.q == [])
    case At(h, _, q, _) => (p'.At? && p'.h == h && q <= p'.q) || (p'.To? && q <= [p'.h] + p'.q)
    case To(h, _, q) => p' == p || (p'.At? && p'.h == h && q <= p'.q) || (p'.To? && p'.h != h && q <= [p'.h] + p'.q)
  }

  // ---------------------------------------------------------------- events of any token

  /** A request arrives: at an idle owner it is answered at once, anywhere else it is remembered. */
  lemma OnRequest(k: World, p: Packet, mons: set<TokenId>, stamp: nat)
    requires Inv(k) && Small(k) && p in k.net && p.msg.Request?
    ensures var (s, outs) := GetRequest(k.C(p.dst), k.t, k.slots[p.dst], p.src, p.msg.num, mons);
      var k' := Apply(k, p.dst, s, {p}, stamp, outs);
      Inv(k') && Onward(Place(k), Place(k'))
  {
    var i := p.dst;
    var s0 := k.slots[i];
    var h := Heard(k.C(i), s0, p.src, p.msg.num);
    var (s, outs) := GetRequest(k.C(i), k.t, s0, p.src, p.msg.num, mons);
    if Owner(s0) && !s0.priv.value.locked && Wants(h.priv.value, p.src) {
      AnswerAtOnce(k, p, mons, stamp);
    } else {
      if Owner(s0) && !s0.priv.value.locked {
        IdleOwner(k, p);
      }
      HearRefines(k, p, stamp);
    }
  }

  /** At an idle owner nobody waits, and a request is either old or the next one of its sender. */
  lemma IdleOwner(k: World, p: Packet)
    requires Inv(k) && Small(k) && p in k.net && p.msg.Request?
    requires Owner(k.slots[p.dst]) && !k.slots[p.dst].priv.value.locked
    ensures var q := k.slots[p.dst].priv.value;
      && q.queue == []
      && (forall x: nat :: x < k.n ==> q.rn[x] <= q.ln[x] < U32_MAX)
      && q.rn[p.dst] == q.ln[p.dst]
      && p.msg.num <= q.ln[p.src] as int + 1
      && (p.src == p.dst ==> p.msg.num <= q.rn[p.dst])
  {
    var i := p.dst;
    var a := Abs(k);
    assert OwnedAt(k, i);
    PlaceAt(k, i);
    assert a.rn[i] == k.slots[i].priv.value.rn;
    assert SK.Req(p.src, p.dst, p.msg.num) in a.reqs;
    assert forall x: nat :: x < k.n ==> a.rn[x][x] < U32_MAX;
  }

  lemma AloneInLine(p: Priv, from: NodeId, to: nat)
    requires to <= |p.ln| && to <= |p.rn| && p.queue == []
    requires forall x: nat :: x < to ==> (Wants(p, x) <==> x == from)
    ensures Latecomers(p, to) == if from < to then [from] else []
  {
    if to > 0 {
      AloneInLine(p, from, to - 1);
    }
  }

  /** Answering at once is entering, hearing and leaving again in one go. */
  lemma AnswerAtOnce(k: World, p: Packet, mons: set<TokenId>, stamp: nat)
    requires Inv(k) && Small(k) && p in k.net && p.msg.Request?
    requires Owner(k.slots[p.dst]) && !k.slots[p.dst].priv.value.locked
    requires Wants(Heard(k.C(p.dst), k.slots[p.dst], p.src, p.msg.num).priv.value, p.src)
    ensures var (s, outs) := GetRequest(k.C(p.dst), k.t, k.slots[p.dst], p.src, p.msg.num, mons);
      var k' := Apply(k, p.dst, s, {p}, stamp, outs);
      Inv(k') && Place(k).At? && Place(k).q == [] && Place(k').To? && Place(k').h == p.src && Place(k').q == []
  {
    hide SK.Inv;
    hide AtMostOne;
    var i := p.dst;
    var c := k.C(i);
    var s0 := k.slots[i];
    IdleOwner(k, p);
    EnterAndHear(k, p, stamp);
    var s2 := Heard(c, s0.(priv := Some(s0.priv.value.(locked := true))), p.src, p.msg.num);
    var k2 := Apply(k, i, s2, {p}, stamp, {});
    PassRefines(k2, i, mons, stamp);
    AnswerIsPass(c, k.t, s0, p.src, p.msg.num, mons);
    var (s, outs) := GetRequest(c, k.t, s0, p.src, p.msg.num, mons);
    Twice(k, i, s2, s, {p}, stamp, outs);
    assert OwnedAt(k, i);
    PlaceAt(k, i);
  }

  lemma EnterAndHear(k: World, p: Packet, stamp: nat)
    requires Inv(k) && Small(k) && p in k.net && p.msg.Request? && Owner(k.slots[p.dst])
    ensures var s0 := k.slots[p.dst];
      var k2 := Apply(k, p.dst, Heard(k.C(p.dst), s0.(priv := Some(s0.priv.value.(locked := true))), p.src, p.msg.num), {p}, stamp, {});
      Inv(k2) && Small(k2)
  {
    hide SK.Inv, AtMostOne, Place, Inv, Row;
    InvShape(k);
    var i := p.dst;
    var s0 := k.slots[i];
    var s1 := s0.(priv := Some(s0.priv.value.(locked := true)));
    EnterRefines(k, i, s1, stamp);
    var k1 := Apply(k, i, s1, {}, stamp, {});
    assert k1.net == k.net;
    HearRefines(k1, p, stamp);
    HearKeepsSmall(k1, p, stamp);
    assert k1.slots[i := Heard(k.C(i), s1, p.src, p.msg.num)] == k.slots[i := Heard(k.C(i), s1, p.src, p.msg.num)];
    assert k1.net - {p} + Stamped(i, stamp, {}) == k.net - {p} + Stamped(i, stamp, {});
  }

  lemma HearKeepsSmall(k: World, p: Packet, stamp: nat)
    requires Inv(k) && Small(k) && p in k.net && p.msg.Request?
    ensures Small(Apply(k, p.dst, Heard(k.C(p.dst), k.slots[p.dst], p.src, p.msg.num), {p}, stamp, {}))
  {
    hide AtMostOne, Place, SK.Announced, SK.PlaceOk;
    var r := SK.Req(p.src, p.dst, p.msg.num);
    HearShape(k, p, stamp);
    assert r.num <= Abs(k).rn[p.src][p.src];
    HeardRow(k.C(p.dst), k.slots[p.dst], p.src, p.msg.num);
  }

  lemma ReleaseToOne(p: Priv, from: NodeId, i: NodeId)
    requires |p.ln| == |p.rn| && i < |p.ln| && from < |p.ln| && from != i && p.queue == [] && p.rn[i] == p.ln[i] < U32_MAX
    requires forall x: nat :: x < |p.ln| ==> (Wants(p, x) <==> x == from)
    ensures Release(p, i) == p.(queue := [from])
  {
    assert p.ln[i := p.rn[i]] == p.ln;
    AloneInLine(p, from, |p.ln|);
  }

  lemma AnswerIsPass(c: Ctx, t: TokenId, s: Slot, from: NodeId, num: U32, mons: set<TokenId>)
    requires SlotOk(c, s) && from < c.n && Owner(s) && !s.priv.value.locked
    requires s.priv.value.queue == [] && s.priv.value.rn[c.id] == s.priv.value.ln[c.id]
    requires forall x: nat :: x < c.n ==> s.priv.value.rn[x] <= s.priv.value.ln[x] < U32_MAX
    requires num <= s.priv.value.ln[from] as int + 1
    requires from == c.id ==> num <= s.priv.value.rn[from]
    requires Wants(Heard(c, s, from, num).priv.value, from)
    ensures var s2 := Heard(c, s.(priv := Some(s.priv.value.(locked := true))), from, num);
      var p := Release(s2.priv.value, c.id);
      && p.queue == [from]
      && GetRequest(c, t, s, from, num, mons) == ReleaseAndPass(c, t, s2.(priv := Some(s2.priv.value.(locked := false))), mons)
  {
    var s2 := Heard(c, s.(priv := Some(s.priv.value.(locked := true))), from, num);
    var p := s2.priv.value;
    assert from != c.id;
    ReleaseToOne(p, from, c.id);
    ReleaseIgnoresLock(p, false, c.id);
    var h := Heard(c, s, from, num);
    assert p.(locked := false) == h.priv.value;
    assert [from][1..] == [];
  }

  /** requestToken keeps the invariant, whether or not a request is already pending or the cluster is up. */
  lemma OnAsk(k: World, i: NodeId, stamp: nat)
    requires Inv(k) && Small(k) && i < k.n && !Owner(k.slots[i])
    requires k.up[i] ==> k.minted && k.slots[i].priv.Some?
    ensures var (s, outs) := AskFor(k.C(i), k.t, k.slots[i]);
      var k' := Apply(k, i, s, {}, stamp, outs);
      Inv(k') && Place(k') == Place(k)
  {
    hide SK.Inv;
    hide AtMostOne;
    if k.up[i] {
      AskRefines(k, i, stamp);
    } else {
      Cosmetic(k, i, k.slots[i].(pendReq := true), stamp);
    }
  }

  /** The last handshake: grants are given and stored requests go out. */
  lemma OnUp(k: World, i: NodeId, stamp: nat)
    requires Inv(k) && Small(k) && i < k.n && !k.up[i]
    requires k.slots[i].pendReq ==> k.minted && k.slots[i].priv.Some?
    ensures var (s, outs) := ComeUp(k.C(i).(up := true), k.t, k.slots[i]);
      var k' := Apply(k.(up := k.up[i := true]), i, s, {}, stamp, outs);
      Inv(k') && Onward(Place(k), Place(k'))
  {
    hide SK.Inv;
    hide AtMostOne;
    var s0 := k.slots[i];
    var k0 := k.(up := k.up[i := true]);
    if s0.pendReq {
      var s1 := s0.(pendReq := false);
      Cosmetic(k, i, s1, stamp);
      var k1 := Apply(k, i, s1, {}, stamp, {});
      RaiseRefines(k1, i);
      var k2 := k1.(up := k1.up[i := true]);
      assert k2 == Apply(k0, i, s1, {}, stamp, {});
      assert Small(k2);
      AskRefines(k2, i, stamp);
      var (s, outs) := ComeUp(k.C(i).(up := true), k.t, s0);
      assert (s, outs) == AskFor(k2.C(i), k.t, s1);
      Twice(k0, i, s1, s, {}, stamp, outs);
    } else {
      RaiseRefines(k, i);
      GrantOwned(k0, i, stamp);
    }
  }

  /** grant at an owner. */
  lemma GrantOwned(k: World, i: NodeId, stamp: nat)
    requires Inv(k) && i < k.n
    ensures var k' := Apply(k, i, if Owner(k.slots[i]) then Granted(k.slots[i]) else k.slots[i], {}, stamp, {});
      Inv(k') && Onward(Place(k), Place(k'))
  {
    hide SK.Inv;
    hide AtMostOne;
    var s := if Owner(k.slots[i]) then Granted(k.slots[i]) else k.slots[i];
    if s == k.slots[i] {
      assert Apply(k, i, s, {}, stamp, {}) == k;
      OnwardSame(k);
    } else {
      EnterRefines(k, i, s, stamp);
    }
  }

  lemma OnwardSame(k: World)
    requires Inv(k)
    ensures Onward(Place(k), Place(k))
  {
  }
}
