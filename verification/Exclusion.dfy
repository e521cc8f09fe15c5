/** At most one token, in every run, whoever asks for locks and whenever. */
module Exclusion {
  import opened Basics
  import opened Properties
  import opened Token
  import opened Slot
  import opened World
  import opened Cluster
  import opened UserEvents
  import opened Tokens
  import opened Users

  // ---------------------------------------------------------------- every handler is fair

  lemma FairLock(c: Ctx, t: TokenId, s: Slot)
    requires SlotOk(c, s)
    ensures Fair(Holds(s), RequestLock(c, t, s).0, RequestLock(c, t, s).1)
  {
  }

  lemma FairPass(c: Ctx, t: TokenId, s: Slot, mons: set<TokenId>)
    requires SlotOk(c, s) && s.priv.Some? && !s.priv.value.locked
    ensures ReleaseAndPass(c, t, s, mons).1 == {} ==> Holds(ReleaseAndPass(c, t, s, mons).0) == Holds(s)
    ensures Fair(true, ReleaseAndPass(c, t, s, mons).0, ReleaseAndPass(c, t, s, mons).1)
  {
    ReleaseFrame(s.priv.value, c.id, c.n);
  }

  lemma FairUnlock(c: Ctx, t: TokenId, s: Slot)
    requires SlotOk(c, s)
    ensures Fair(Holds(s), RequestUnlock(c, t, s).0, RequestUnlock(c, t, s).1)
  {
    if s.priv.Some? && s.priv.value.locked {
      FairPass(c, t, s.(priv := Some(s.priv.value.(locked := false))), {});
    }
  }

  lemma FairRequest(c: Ctx, t: TokenId, s: Slot, from: NodeId, num: U32, mons: set<TokenId>)
    requires SlotOk(c, s) && from < c.n
    ensures Fair(Holds(s), GetRequest(c, t, s, from, num, mons).0, GetRequest(c, t, s, from, num, mons).1)
  {
  }

  lemma FairGive(c: Ctx, s: Slot, d: TokenData)
    ensures Fair(true, GetGive(c, s, d), {})
  {
  }

  lemma FairAdopt(c: Ctx, t: TokenId, s: Slot, exists_: bool)
    requires SlotOk(c, s)
    ensures var minting := s.priv.Some? && !s.priv.value.created && !exists_;
      Fair(Holds(s) || minting, Adopt(c, t, s, exists_).0, Adopt(c, t, s, exists_).1)
  {
  }

  lemma FairUp(c: Ctx, t: TokenId, s: Slot)
    requires SlotOk(c, s)
    ensures Fair(Holds(s), ComeUp(c, t, s).0, ComeUp(c, t, s).1)
  {
  }

  lemma FairDeclare(c: Ctx, s: Slot, props: Props, created: bool, owned: bool)
    ensures Fair(Holds(s) || (s.priv.None? && s.pub.None? && owned), Declare(c, s, props, created, owned), {})
  {
  }

  lemma FairWrite(s: Slot, props: Props)
    ensures Fair(Holds(s), s.(pub := Some(props)), {})
  {
  }

  // ---------------------------------------------------------------- every step keeps at most one

  /** No event makes a second token. */
  lemma SingleAfter(k: World, e: Ev, stamp: nat)
    requires Single(k) && Possible(k, e) && WellFormed(After(k, e, stamp))
    ensures Single(After(k, e, stamp))
  {
    hide AtMostOne, RequestLock, RequestUnlock, GetRequest, GetGive, Adopt, ComeUp, Declare, Fair, Holds;
    var u := k.slots[At(e)];
    match e {
      case Nothing => NothingHappens(k, stamp);
      case Locks(i) => FairLock(k.C(i), k.t, u);
      case Unlocks(i) => FairUnlock(k.C(i), k.t, u);
      case Writes(_, props) => FairWrite(u, props);
      case Declares(i, props, created, owned) => FairDeclare(k.C(i), u, props, created, owned);
      case Hears(p) => FairRequest(k.C(p.dst), k.t, u, p.src, p.msg.num, {});
      case Receives(p) => FairGive(k.C(p.dst), u, p.msg.data);
      case Settles(i) => FairAdopt(k.C(i), k.t, u, k.minted);
      case Rises(i) => FairUp(k.C(i).(up := true), k.t, u);
    }
    if !e.Nothing? {
      var k0 := if e.Rises? then k.(up := k.up[At(e) := true]) else k;
      SingleUp(k, At(e));
      assert e.Receives? ==> e.p in Uses(e);
      FairKeepsAtMostOne(k0, At(e), Effect(k, e).0, Uses(e), stamp, Effect(k, e).1, k.minted || Creates(k, e));
    }
  }

  lemma SingleUp(k: World, i: NodeId)
    requires Single(k) && i < k.n
    ensures Single(k.(up := k.up[i := true]))
  {
  }

  /** No step, informed or not, makes a second token. */
  lemma SingleKept(s: State, a: Act, t: TokenId)
    requires SystemReady(s) && t.Monitor? && Single(Proj(s, t)) && Enabled(s, a)
    ensures Single(Proj(Step(s, a), t))
  {
    hide SystemReady, Step, Single, After;
    ReadySmall(s, t);
    StepIs(s, a, t);
    AfterShape(s, a, t);
    SingleAfter(Proj(s, t), EventOf(s, a, t), s.clock);
  }
}
