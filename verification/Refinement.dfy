/** The slots and packets of one token refine the algorithm with the token in one place. */
module Refinement {
  import opened Basics
  import opened Token
  import opened Slot
  import opened World
  import SK = SuzukiKasami

  function Row(s: Slot, n: nat): (r: seq<nat>)
    ensures |r| == n
  {
    if s.priv.Some? && |s.priv.value.rn| == n then s.priv.value.rn else seq(n, _ => 0)
  }

  predicate Owner(s: Slot) {
    s.priv.Some? && s.priv.value.owned
  }

  function Reqs(net: set<Packet>): set<SK.Req> {
    set p | p in net && p.msg.Request? :: SK.Req(p.src, p.dst, p.msg.num)
  }

  ghost predicate OwnedAt(k: World, i: nat) {
    i < |k.slots| && Owner(k.slots[i])
  }

  ghost predicate Flying(k: World, p: Packet) {
    p in k.net && p.msg.Give?
  }

  ghost function Place(k: World): SK.Place {
    if exists i: nat :: OwnedAt(k, i) then
      var i: nat :| OwnedAt(k, i);
      var p := k.slots[i].priv.value;
      SK.At(i, p.ln, p.queue, p.locked)
    else if exists p :: Flying(k, p) then
      var p :| Flying(k, p);
      SK.To(p.dst, p.msg.data.ln, p.msg.data.queue)
    else SK.Nowhere
  }

  /** The algorithm state that a world stands for. */
  ghost function Abs(k: World): SK.Alg {
    SK.Alg(k.n,
           seq(|k.slots|, i requires 0 <= i < |k.slots| => Row(k.slots[i], k.n)),
           seq(|k.slots|, i requires 0 <= i < |k.slots| => k.slots[i].pendReq && i < |k.up| && k.up[i]),
           Reqs(k.net), Place(k))
  }

  ghost predicate FlagsOk(s: Slot, up: bool) {
    && (s.priv.None? ==> !(s.pendReq && up))
    && (s.priv.Some? && s.priv.value.locked ==> s.priv.value.owned)
    && (s.pendReq ==> !Owner(s))
  }

  /** The part of the invariant that does not speak of request numbers. */
  ghost predicate Base(k: World) {
    && WellFormed(k)
    && AtMostOne(k)
    && (forall i: nat :: i < k.n ==> FlagsOk(k.slots[i], k.up[i]))
  }

  /** The invariant of one token. */
  ghost predicate Inv(k: World) {
    && Base(k)
    && (k.minted <==> !Abs(k).place.Nowhere?)
    && SK.Inv(Abs(k))
  }


  lemma InvShape(k: World)
    requires Inv(k)
    ensures Base(k)
  {
  }

  lemma PlaceAt(k: World, i: nat)
    requires WellFormed(k) && AtMostOne(k) && OwnedAt(k, i)
    ensures var p := k.slots[i].priv.value; Place(k) == SK.At(i, p.ln, p.queue, p.locked)
  {
  }

  lemma PlaceTo(k: World, p: Packet)
    requires WellFormed(k) && AtMostOne(k) && Flying(k, p)
    ensures Place(k) == SK.To(p.dst, p.msg.data.ln, p.msg.data.queue)
  {
    assert forall i: nat :: OwnedAt(k, i) ==> Holds(k.slots[i]);
  }

  lemma AtMeans(k: World)
    requires WellFormed(k) && AtMostOne(k) && Place(k).At?
    ensures OwnedAt(k, Place(k).h)
    ensures var p := k.slots[Place(k).h].priv.value; Place(k) == SK.At(Place(k).h, p.ln, p.queue, p.locked)
  {
  }

  lemma ToMeans(k: World) returns (p: Packet)
    requires WellFormed(k) && AtMostOne(k) && Place(k).To?
    ensures Flying(k, p) && Place(k) == SK.To(p.dst, p.msg.data.ln, p.msg.data.queue)
  {
    p :| Flying(k, p);
    PlaceTo(k, p);
  }

  lemma PlaceNowhere(k: World)
    requires forall i: nat :: !OwnedAt(k, i)
    requires forall p :: !Flying(k, p)
    ensures Place(k).Nowhere?
  {
  }

  /** The bound assumption: no node's own request number is about to wrap. */
  ghost predicate Small(k: World) {
    WellFormed(k) && forall i: nat :: i < k.n ==> Row(k.slots[i], k.n)[i] < U32_MAX
  }

  // ---------------------------------------------------------------- how one step shows in the algorithm

  lemma Numbers(k: World, i: NodeId, s: Slot, used: set<Packet>, stamp: nat, outs: set<Out>)
    requires WellFormed(k) && i < k.n
    ensures var k' := Apply(k, i, s, used, stamp, outs);
      && Abs(k').n == k.n
      && Abs(k').rn == Abs(k).rn[i := Row(s, k.n)]
      && Abs(k').asking == Abs(k).asking[i := s.pendReq && k.up[i]]
      && Abs(k').reqs == Reqs(k.net - used) + set o | o in outs && o.msg.Request? :: SK.Req(i, o.dst, o.msg.num)
  {
    hide WellFormed;
    Rows(k, i, s, used, stamp, outs);
    RequestsAfter(k, i, used, stamp, outs);
  }

  lemma Rows(k: World, i: NodeId, s: Slot, used: set<Packet>, stamp: nat, outs: set<Out>)
    requires WellFormed(k) && i < k.n
    ensures var k' := Apply(k, i, s, used, stamp, outs);
      Abs(k').rn == Abs(k).rn[i := Row(s, k.n)] && Abs(k').asking == Abs(k).asking[i := s.pendReq && k.up[i]]
  {
    hide SlotOk, PacketOk, Row, Place, Reqs;
  }

  lemma RequestsAfter(k: World, i: NodeId, used: set<Packet>, stamp: nat, outs: set<Out>)
    ensures Reqs(k.net - used + Stamped(i, stamp, outs)) == Reqs(k.net - used) + set o | o in outs && o.msg.Request? :: SK.Req(i, o.dst, o.msg.num)
  {
    var net' := k.net - used + Stamped(i, stamp, outs);
    forall o | o in outs && o.msg.Request?
      ensures SK.Req(i, o.dst, o.msg.num) in Reqs(net')
    {
      assert Packet(i, o.dst, stamp, o.msg) in net';
    }
    forall r | r in Reqs(net')
      ensures r in Reqs(k.net - used) + set o | o in outs && o.msg.Request? :: SK.Req(i, o.dst, o.msg.num)
    {
      var p :| p in net' && p.msg.Request? && r == SK.Req(p.src, p.dst, p.msg.num);
      if p in Stamped(i, stamp, outs) {
        assert Out(p.dst, p.msg) in outs;
      }
    }
  }

  /** The token part of two slots agrees. */
  predicate SameToken(s: Slot, s': Slot) {
    && Owner(s) == Owner(s') && Holds(s) == Holds(s')
    && (Owner(s) ==>
          && s.priv.value.ln == s'.priv.value.ln && s.priv.value.queue == s'.priv.value.queue
          && s.priv.value.locked == s'.priv.value.locked)
  }

  /** A step that neither moves the token nor changes what it carries. */
  lemma Still(k: World, i: NodeId, s: Slot, used: set<Packet>, stamp: nat, outs: set<Out>)
    requires WellFormed(k) && AtMostOne(k) && i < k.n && SameToken(k.slots[i], s)
    requires WellFormed(Apply(k, i, s, used, stamp, outs))
    requires forall p :: p in used ==> !p.msg.Give?
    requires forall o :: o in outs ==> !o.msg.Give?
    ensures var k' := Apply(k, i, s, used, stamp, outs);
      AtMostOne(k') && Place(k') == Place(k)
  {
    var k' := Apply(k, i, s, used, stamp, outs);
    FairKeepsAtMostOne(k, i, s, used, stamp, outs, k.minted);
    assert k'.(minted := k.minted) == k';
    if x: nat :| OwnedAt(k, x) {
      PlaceAt(k, x);
      assert OwnedAt(k', x);
      PlaceAt(k', x);
    } else if p :| Flying(k, p) {
      PlaceTo(k, p);
      assert Flying(k', p);
      PlaceTo(k', p);
    } else {
      forall p
        ensures !Flying(k', p)
      {
        assert !Flying(k, p);
        assert p in Stamped(i, stamp, outs) ==> Out(p.dst, p.msg) in outs;
      }
      assert forall x: nat :: OwnedAt(k', x) ==> OwnedAt(k, x);
      PlaceNowhere(k');
    }
  }

  lemma BaseApplied(k: World, i: NodeId, s: Slot, used: set<Packet>, stamp: nat, outs: set<Out>)
    requires Base(k) && i < k.n && FlagsOk(s, k.up[i])
    requires var k' := Apply(k, i, s, used, stamp, outs); WellFormed(k') && AtMostOne(k')
    ensures Base(Apply(k, i, s, used, stamp, outs))
  {
    hide AtMostOne, SlotOk, PacketOk, FlagsOk;
  }

  /** A slot in range, and packets in range. */
  lemma WellApplied(k: World, i: NodeId, s: Slot, used: set<Packet>, stamp: nat, outs: set<Out>)
    requires WellFormed(k) && i < k.n && SlotOk(k.C(i), s)
    requires forall o :: o in outs ==> PacketOk(k, Packet(i, o.dst, stamp, o.msg))
    ensures WellFormed(Apply(k, i, s, used, stamp, outs))
  {
    hide SlotOk;
  }

  /** A step that changes nothing the algorithm looks at. */
  lemma Cosmetic(k: World, i: NodeId, s: Slot, stamp: nat)
    requires Inv(k) && i < k.n && SlotOk(k.C(i), s)
    requires SameToken(k.slots[i], s) && Row(s, k.n) == Row(k.slots[i], k.n)
    requires (s.pendReq && k.up[i]) == (k.slots[i].pendReq && k.up[i])
    requires FlagsOk(s, k.up[i])
    ensures Inv(Apply(k, i, s, {}, stamp, {}))
    ensures Abs(Apply(k, i, s, {}, stamp, {})) == Abs(k)
  {
    hide WellFormed, AtMostOne, Place, SlotOk, Row, FlagsOk;
    WellSized(k);
    var k' := Apply(k, i, s, {}, stamp, {});
    assert k'.net == k.net;
    WellApplied(k, i, s, {}, stamp, {});
    Numbers(k, i, s, {}, stamp, {});
    Still(k, i, s, {}, stamp, {});
    BaseApplied(k, i, s, {}, stamp, {});
    assert Abs(k') == Abs(k);
  }

  lemma WellSized(k: World)
    requires WellFormed(k)
    ensures 0 < k.n == |k.up| == |k.slots| && forall i: nat :: i < k.n ==> SlotOk(k.C(i), k.slots[i])
    ensures forall i: nat :: i < k.n ==> |Row(k.slots[i], k.n)| == k.n
  {
    hide PacketOk;
  }

  /** requestToken, with the cluster up, for a token that exists elsewhere. */
  lemma AskRefines(k: World, i: NodeId, stamp: nat)
    requires Inv(k) && Small(k) && i < k.n && k.up[i] && k.minted
    requires k.slots[i].priv.Some? && !k.slots[i].priv.value.owned
    ensures var (s, outs) := AskFor(k.C(i), k.t, k.slots[i]);
      var k' := Apply(k, i, s, {}, stamp, outs);
      Inv(k') && Abs(k') == if k.slots[i].pendReq then Abs(k) else SK.Ask(Abs(k), i)
  {
    var (s, outs) := AskFor(k.C(i), k.t, k.slots[i]);
    var k' := Apply(k, i, s, {}, stamp, outs);
    if k.slots[i].pendReq {
      assert outs == {};
      assert k' == k;
    } else {
      AskShape(k, i, stamp);
      if Place(k).At? {
        AtMeans(k);
      }
      SK.AskKeeps(Abs(k), i);
    }
  }

  lemma AskShape(k: World, i: NodeId, stamp: nat)
    requires Base(k) && i < k.n && k.up[i] && Row(k.slots[i], k.n)[i] < U32_MAX
    requires k.slots[i].priv.Some? && !k.slots[i].pendReq && !Owner(k.slots[i])
    ensures var (s, outs) := AskFor(k.C(i), k.t, k.slots[i]);
      var k' := Apply(k, i, s, {}, stamp, outs);
      Base(k') && Abs(k') == SK.Ask(Abs(k), i)
  {
    hide AtMostOne, Place, WellFormed;
    WellSized(k);
    var (s, outs) := AskFor(k.C(i), k.t, k.slots[i]);
    var k' := Apply(k, i, s, {}, stamp, outs);
    var num := Row(s, k.n)[i];
    assert outs == Broadcast(Others(k.n, i), Request(k.t, num));
    WellApplied(k, i, s, {}, stamp, outs);
    Numbers(k, i, s, {}, stamp, outs);
    Still(k, i, s, {}, stamp, outs);
    BaseApplied(k, i, s, {}, stamp, outs);
    assert k.net - {} == k.net;
    AskedReqs(k.n, i, k.t, num);
  }

  lemma AskedReqs(n: nat, i: NodeId, t: TokenId, num: U32)
    ensures (set o | o in Broadcast(Others(n, i), Request(t, num)) && o.msg.Request? :: SK.Req(i, o.dst, o.msg.num))
         == (set j | j in Others(n, i) :: SK.Req(i, j, num))
  {
    forall j | j in Others(n, i)
      ensures Out(j, Request(t, num)) in Broadcast(Others(n, i), Request(t, num))
    {
    }
  }

  /** Two moves of the same node, one after the other. */
  lemma Twice(k: World, i: NodeId, s1: Slot, s2: Slot, used: set<Packet>, stamp: nat, outs: set<Out>)
    requires i < |k.slots|
    ensures Apply(Apply(k, i, s1, used, stamp, {}), i, s2, {}, stamp, outs) == Apply(k, i, s2, used, stamp, outs)
  {
    var k1 := Apply(k, i, s1, used, stamp, {});
    assert k1.net == k.net - used;
    assert k1.slots[i := s2] == k.slots[i := s2];
  }

  // ---------------------------------------------------------------- release

  /** Under the bound, the u32 test of `release` is the test of the algorithm. */
  lemma ReleaseIsReleased(k: World, i: NodeId)
    requires Inv(k) && Small(k) && i < k.n && Owner(k.slots[i])
    ensures Place(k).At? && Place(k).h == i
    ensures var r := Release(k.slots[i].priv.value, i); SK.Released(Abs(k), r.ln, r.queue)
  {
    hide AtMostOne, Release;
    var p := k.slots[i].priv.value;
    var r := Release(p, i);
    assert OwnedAt(k, i);
    PlaceAt(k, i);
    ReleaseFrame(p, i, k.n);
    ReleaseNoDup(p, i, k.n);
    var a := Abs(k);
    assert SK.Accounts(a, p.ln, p.queue);
    assert a.rn[i] == p.rn;
    forall x: nat
      ensures x in r.queue <==> x in p.queue || (x < k.n && a.rn[i][x] == r.ln[x] + 1)
    {
      ReleaseQueue(p, i, k.n, x);
      if x < k.n {
        assert a.rn[x][x] < U32_MAX;
        assert r.ln[x] < U32_MAX;
      }
    }
  }

  /** Leaving the critical section, with the token passed on when somebody waits. */
  lemma PassRefines(k: World, i: NodeId, mons: set<TokenId>, stamp: nat)
    requires Inv(k) && Small(k) && i < k.n && Owner(k.slots[i])
    ensures var s0 := k.slots[i].(priv := Some(k.slots[i].priv.value.(locked := false)));
      var (s, outs) := ReleaseAndPass(k.C(i), k.t, s0, mons);
      var r := Release(k.slots[i].priv.value, i);
      var k' := Apply(k, i, s, {}, stamp, outs);
      Inv(k') && Place(k).At? && Abs(k') == SK.Leave(Abs(k), r.ln, r.queue)
  {
    var p := k.slots[i].priv.value;
    var s0 := k.slots[i].(priv := Some(p.(locked := false)));
    var (s, outs) := ReleaseAndPass(k.C(i), k.t, s0, mons);
    var r := Release(p, i);
    var k' := Apply(k, i, s, {}, stamp, outs);
    ReleaseIsReleased(k, i);
    PassShape(k, i, mons, stamp);
    SK.LeaveKeeps(Abs(k), r.ln, r.queue);
  }

  lemma PassShape(k: World, i: NodeId, mons: set<TokenId>, stamp: nat)
    requires Base(k) && i < k.n && Owner(k.slots[i])
    ensures var s0 := k.slots[i].(priv := Some(k.slots[i].priv.value.(locked := false)));
      var (s, outs) := ReleaseAndPass(k.C(i), k.t, s0, mons);
      var r := Release(k.slots[i].priv.value, i);
      var k' := Apply(k, i, s, {}, stamp, outs);
      && Base(k')
      && Place(k).At? && Abs(k') == SK.Leave(Abs(k), r.ln, r.queue)
  {
    var p := k.slots[i].priv.value;
    var s0 := k.slots[i].(priv := Some(p.(locked := false)));
    var r := Release(p, i);
    ReleaseIgnoresLock(p, false, i);
    ReleaseFrame(p, i, k.n);
    assert OwnedAt(k, i);
    PlaceAt(k, i);
    if r.queue == [] {
      KeepShape(k, i, s0.(priv := Some(r.(locked := false))), stamp);
    } else {
      assert r.queue[0] in r.queue;
      assert forall x: nat :: x in r.queue[1..] ==> x in r.queue;
      var q := r.(locked := false, queue := r.queue[1..]);
      SendShape(k, i, s0.(priv := Some(q.(owned := false))), r.queue[0], TokenData(q.ln, q.queue, mons, PropsOf(s0.pub)), stamp);
    }
  }

  /** The token stays where it is owned. */
  lemma KeepShape(k: World, i: NodeId, s: Slot, stamp: nat)
    requires Base(k) && i < k.n && Owner(k.slots[i]) && SlotOk(k.C(i), s)
    requires Owner(s) && s.priv.value.rn == k.slots[i].priv.value.rn && s.pendReq == k.slots[i].pendReq
    ensures var k' := Apply(k, i, s, {}, stamp, {});
      && Base(k')
      && Abs(k') == Abs(k).(place := SK.At(i, s.priv.value.ln, s.priv.value.queue, s.priv.value.locked))
  {
    var k' := Apply(k, i, s, {}, stamp, {});
    assert k'.net == k.net;
    Numbers(k, i, s, {}, stamp, {});
    FairKeepsAtMostOne(k, i, s, {}, stamp, {}, k.minted);
    assert k'.(minted := k.minted) == k';
    assert OwnedAt(k', i);
    PlaceAt(k', i);
    assert Abs(k').rn == Abs(k).rn;
    assert Abs(k').asking == Abs(k).asking;
  }

  /** The token goes out. */
  lemma SendShape(k: World, i: NodeId, s: Slot, dst: NodeId, d: TokenData, stamp: nat)
    requires Base(k) && i < k.n && Owner(k.slots[i]) && SlotOk(k.C(i), s)
    requires s.priv.Some? && !Holds(s) && s.priv.value.rn == k.slots[i].priv.value.rn && s.pendReq == k.slots[i].pendReq
    requires dst < k.n && |d.ln| == k.n && forall x: nat :: x in d.queue ==> x < k.n
    ensures var k' := Apply(k, i, s, {}, stamp, {Out(dst, Give(k.t, d))});
      && Base(k')
      && Abs(k') == Abs(k).(place := SK.To(dst, d.ln, d.queue))
  {
    hide Place, WellFormed, AtMostOne, Row;
    WellSized(k);
    var outs := {Out(dst, Give(k.t, d))};
    var k' := Apply(k, i, s, {}, stamp, outs);
    var g := Packet(i, dst, stamp, Give(k.t, d));
    assert Stamped(i, stamp, outs) == {g};
    assert k.net - {} == k.net;
    WellApplied(k, i, s, {}, stamp, outs);
    SameRow(k, i, s);
    Numbers(k, i, s, {}, stamp, outs);
    FairKeepsAtMostOne(k, i, s, {}, stamp, outs, k.minted);
    assert k'.(minted := k.minted) == k';
    BaseApplied(k, i, s, {}, stamp, outs);
    assert Flying(k', g);
    PlaceTo(k', g);
    assert Abs(k').rn == Abs(k).rn;
    assert Abs(k').asking == Abs(k).asking;
    assert Abs(k').reqs == Abs(k).reqs;
  }

  lemma SameRow(k: World, i: NodeId, s: Slot)
    requires WellFormed(k) && i < k.n && k.slots[i].priv.Some? && s.priv.Some? && s.priv.value.rn == k.slots[i].priv.value.rn
    ensures Row(s, k.n) == Row(k.slots[i], k.n) && |Row(s, k.n)| == k.n
  {
  }

  /** An owner enters its critical section. */
  lemma EnterRefines(k: World, i: NodeId, s: Slot, stamp: nat)
    requires Inv(k) && i < k.n && Owner(k.slots[i])
    requires s.priv == Some(k.slots[i].priv.value.(locked := true)) && s.pendReq == k.slots[i].pendReq
    ensures var k' := Apply(k, i, s, {}, stamp, {});
      Inv(k') && Place(k).At? && Abs(k') == SK.Enter(Abs(k))
  {
    assert OwnedAt(k, i);
    PlaceAt(k, i);
    KeepShape(k, i, s, stamp);
    SK.EnterKeeps(Abs(k));
  }

  // ---------------------------------------------------------------- receiving

  /** A token in flight is always accepted where it arrives. */
  lemma Welcome(k: World, p: Packet)
    requires Inv(k) && p in k.net && p.msg.Give?
    ensures Place(k) == SK.To(p.dst, p.msg.data.ln, p.msg.data.queue)
    ensures k.slots[p.dst].pendReq && k.up[p.dst] && Accepts(k.slots[p.dst])
  {
    assert Flying(k, p);
    PlaceTo(k, p);
    assert Abs(k).asking[p.dst];
  }

  /** The token arrives and the receiver is, or counts as, inside its critical section. */
  lemma TakeRefines(k: World, p: Packet, s: Slot, stamp: nat)
    requires Inv(k) && p in k.net && p.msg.Give?
    requires s.priv.Some? && Accepts(k.slots[p.dst])
    requires s.priv.value == Load(k.slots[p.dst].priv.value.(owned := true, locked := true), k.n, p.msg.data).(created := s.priv.value.created)
    requires !s.pendReq
    ensures var k' := Apply(k, p.dst, s, {p}, stamp, {});
      Inv(k') && Place(k).To? && Abs(k') == SK.Arrive(Abs(k))
  {
    Welcome(k, p);
    TakeShape(k, p, s, stamp);
    SK.ArriveKeeps(Abs(k));
  }

  lemma TakeShape(k: World, p: Packet, s: Slot, stamp: nat)
    requires Base(k) && p in k.net && p.msg.Give? && SlotOk(k.C(p.dst), s)
    requires Owner(s) && s.priv.value.locked && !s.pendReq
    requires s.priv.value.ln == p.msg.data.ln && s.priv.value.queue == p.msg.data.queue
    requires Row(s, k.n) == Row(k.slots[p.dst], k.n)
    ensures var k' := Apply(k, p.dst, s, {p}, stamp, {});
      Base(k') && Place(k).To? && Place(k).h == p.dst && Abs(k') == SK.Arrive(Abs(k))
  {
    hide Place, WellFormed, AtMostOne, Row;
    WellSized(k);
    InNet(k, p);
    var i := p.dst;
    var k' := Apply(k, i, s, {p}, stamp, {});
    assert Flying(k, p);
    PlaceTo(k, p);
    WellApplied(k, i, s, {p}, stamp, {});
    Numbers(k, i, s, {p}, stamp, {});
    assert Reqs(k.net - {p}) == Reqs(k.net);
    FairKeepsAtMostOne(k, i, s, {p}, stamp, {}, k.minted);
    assert k'.(minted := k.minted) == k';
    BaseApplied(k, i, s, {p}, stamp, {});
    assert OwnedAt(k', i);
    PlaceAt(k', i);
    assert Abs(k').rn == Abs(k).rn;
  }

  // ---------------------------------------------------------------- hearing a request

  function Heard(c: Ctx, s: Slot, from: NodeId, num: U32): Slot
    requires SlotOk(c, s) && from < c.n
  {
    var p0 := if s.priv.Some? then s.priv.value else NewPriv(c.n, true, false);
    s.(priv := Some(UpdateRequestNumber(p0, from, num)))
  }

  lemma HearRefines(k: World, p: Packet, stamp: nat)
    requires Inv(k) && p in k.net && p.msg.Request?
    requires var s := k.slots[p.dst]; Owner(s) && !s.priv.value.locked ==> p.msg.num <= s.priv.value.ln[p.src]
    ensures var k' := Apply(k, p.dst, Heard(k.C(p.dst), k.slots[p.dst], p.src, p.msg.num), {p}, stamp, {});
      var r := SK.Req(p.src, p.dst, p.msg.num);
      Inv(k') && r in Abs(k).reqs && Abs(k') == SK.Hear(Abs(k), r, r !in Reqs(k.net - {p}))
  {
    var r := SK.Req(p.src, p.dst, p.msg.num);
    HearShape(k, p, stamp);
    if Place(k).At? {
      AtMeans(k);
    }
    SK.HearKeeps(Abs(k), r, r !in Reqs(k.net - {p}));
  }

  lemma HearShape(k: World, p: Packet, stamp: nat)
    requires Base(k) && p in k.net && p.msg.Request?
    ensures var k' := Apply(k, p.dst, Heard(k.C(p.dst), k.slots[p.dst], p.src, p.msg.num), {p}, stamp, {});
      var r := SK.Req(p.src, p.dst, p.msg.num);
      && Base(k') && r in Abs(k).reqs
      && Abs(k') == SK.Hear(Abs(k), r, r !in Reqs(k.net - {p}))
  {
    hide AtMostOne, Place, WellFormed;
    WellSized(k);
    var i := p.dst;
    assert p.src < k.n && i < k.n by { InNet(k, p); }
    var s := Heard(k.C(i), k.slots[i], p.src, p.msg.num);
    var k' := Apply(k, i, s, {p}, stamp, {});
    HeardWell(k, p, stamp);
    Numbers(k, i, s, {p}, stamp, {});
    Still(k, i, s, {p}, stamp, {});
    BaseApplied(k, i, s, {p}, stamp, {});
    HeardReqs(k.net, p);
    HeardRow(k.C(i), k.slots[i], p.src, p.msg.num);
    assert Abs(k).rn[i] == Row(k.slots[i], k.n);
    assert Abs(k').asking == Abs(k).asking;
  }

  lemma InNet(k: World, p: Packet)
    requires WellFormed(k) && p in k.net
    ensures PacketOk(k, p) && p.src < k.n && p.dst < k.n
  {
  }

  lemma HeardWell(k: World, p: Packet, stamp: nat)
    requires WellFormed(k) && p in k.net && p.msg.Request?
    ensures WellFormed(Apply(k, p.dst, Heard(k.C(p.dst), k.slots[p.dst], p.src, p.msg.num), {p}, stamp, {}))
  {
  }

  lemma HeardRow(c: Ctx, s: Slot, from: NodeId, num: U32)
    requires SlotOk(c, s) && from < c.n
    ensures var r := Row(s, c.n); Row(Heard(c, s, from, num), c.n) == r[from := if r[from] < num then num else r[from]]
  {
  }

  lemma HeardReqs(net: set<Packet>, p: Packet)
    requires p in net && p.msg.Request?
    ensures var r := SK.Req(p.src, p.dst, p.msg.num);
      r in Reqs(net) && Reqs(net - {p}) == if r !in Reqs(net - {p}) then Reqs(net) - {r} else Reqs(net)
  {
    assert forall q :: q in net && q != p ==> q in net - {p};
  }

  // ---------------------------------------------------------------- minting, and coming up

  lemma MintRefines(k: World, i: NodeId, s: Slot, stamp: nat)
    requires Inv(k) && i < k.n && !k.minted
    requires SlotOk(k.C(i), s) && Owner(s) && !s.priv.value.locked && !s.pendReq && !k.slots[i].pendReq
    requires s.priv.value.ln == seq(k.n, _ => 0) && s.priv.value.queue == [] && Row(s, k.n) == Row(k.slots[i], k.n)
    ensures var k' := Apply(k, i, s, {}, stamp, {}).(minted := true);
      Inv(k') && Place(k).Nowhere? && Abs(k') == SK.Mint(Abs(k), i)
  {
    MintShape(k, i, s, stamp);
    PlaceNone(k);
    SK.MintKeeps(Abs(k), i);
  }

  lemma PlaceNone(k: World)
    requires Base(k) && !k.minted
    ensures Place(k).Nowhere?
  {
    assert forall i: nat :: OwnedAt(k, i) ==> Holds(k.slots[i]);
  }

  lemma MintShape(k: World, i: NodeId, s: Slot, stamp: nat)
    requires Base(k) && i < k.n && !k.minted
    requires SlotOk(k.C(i), s) && Owner(s) && !s.priv.value.locked && !s.pendReq && !k.slots[i].pendReq
    requires s.priv.value.ln == seq(k.n, _ => 0) && s.priv.value.queue == [] && Row(s, k.n) == Row(k.slots[i], k.n)
    ensures var k' := Apply(k, i, s, {}, stamp, {}).(minted := true);
      Base(k') && Abs(k') == SK.Mint(Abs(k), i)
  {
    hide Place, AtMostOne;
    var k' := Apply(k, i, s, {}, stamp, {}).(minted := true);
    assert k'.net == k.net;
    assert WellFormed(k');
    Numbers(k, i, s, {}, stamp, {});
    FairKeepsAtMostOne(k, i, s, {}, stamp, {}, true);
    assert OwnedAt(k', i);
    PlaceAt(k', i);
    assert Abs(k').rn == Abs(k).rn;
    assert Abs(k').asking == Abs(k).asking;
  }

  /** Node i learns that the whole cluster has started, with no request waiting to be sent. */
  lemma RaiseRefines(k: World, i: NodeId)
    requires Inv(k) && i < k.n && !k.slots[i].pendReq
    ensures var k' := k.(up := k.up[i := true]); Inv(k') && Abs(k') == Abs(k)
  {
    RaiseShape(k, i);
  }

  lemma RaiseShape(k: World, i: NodeId)
    requires Base(k) && i < k.n && !k.slots[i].pendReq
    ensures var k' := k.(up := k.up[i := true]); Base(k') && Abs(k') == Abs(k)
  {
    var k' := k.(up := k.up[i := true]);
    assert WellFormed(k');
    assert forall x: nat :: OwnedAt(k', x) == OwnedAt(k, x);
    assert forall p :: Flying(k', p) == Flying(k, p);
    assert Place(k') == Place(k) by {
      if x: nat :| OwnedAt(k, x) {
        PlaceAt(k, x);
        PlaceAt(k', x);
      } else if p :| Flying(k, p) {
        PlaceTo(k, p);
        PlaceTo(k', p);
      }
    }
    assert Abs(k').asking == Abs(k).asking;
    assert Abs(k').rn == Abs(k).rn;
  }
}
