/** When exactly a monitor's token is conserved: always, but for one branch of packetGiveToken. */
module Conservation {
  import opened Basics
  import opened Properties
  import opened Token
  import opened Slot
  import opened Node
  import opened World
  import opened Cluster
  import opened Startup
  import opened Refinement
  import opened Monitors
  import opened Tokens
  import opened UserEvents
  import opened Users
  import opened Exclusion
  import opened Runs
  import opened Theorems
  import opened Brackets
  import opened Always

  /** From its minting on the token is owned once or travels once, and whoever is locked owns it. */
  ghost predicate Conserved(s: State, t: TokenId) {
    && |Owners(s, t)| + |Gives(s, t)| == (if Minted(s, t) then 1 else 0)
    && Holders(s, t) == Owners(s, t)
  }

  /** The branch: the system token lists a monitor whose token this node owns without knowing it to be created, and
      the handler clears the owned flag. */
  predicate Clears(s: State, a: Act, t: TokenId)
    requires Shape(s) && Enabled(s, a)
  {
    a.Deliver? && a.p.msg.Give? && a.p.msg.t == System && t in a.p.msg.data.monitors
    && t in s.nodes[a.p.dst].priv && !s.nodes[a.p.dst].priv[t].created && s.nodes[a.p.dst].priv[t].owned
  }

  // ---------------------------------------------------------------- in terms of slots and packets

  ghost predicate Kept(k: World) {
    && (forall i: nat :: i < |k.slots| && Holds(k.slots[i]) ==> Owner(k.slots[i]))
    && (k.minted ==> (exists i: nat :: OwnedAt(k, i)) || (exists p :: Flying(k, p)))
  }

  lemma ConservedIsKept(s: State, t: TokenId)
    requires Shape(s) && Single(Proj(s, t))
    ensures Conserved(s, t) <==> Kept(Proj(s, t))
  {
    hide Shape, Minted, Owners, Gives, Holders;
    var k := Proj(s, t);
    CountSingle(s, t);
    HoldersAre(s, t);
    SomeOwner(s, t);
    SomeGive(s, t);
  }

  lemma SomeOwner(s: State, t: TokenId)
    requires Shape(s)
    ensures Owners(s, t) != {} <==> exists i: nat :: OwnedAt(Proj(s, t), i)
  {
    var k := Proj(s, t);
    if i :| i in Owners(s, t) {
      assert k.slots[i] == View(s.nodes[i], t);
      assert OwnedAt(k, i);
    }
    if i: nat :| OwnedAt(k, i) {
      assert k.slots[i] == View(s.nodes[i], t);
      assert i in Owners(s, t);
    }
  }

  lemma SomeGive(s: State, t: TokenId)
    ensures Gives(s, t) != {} <==> exists p :: Flying(Proj(s, t), p)
  {
    if p :| p in Gives(s, t) {
      assert Flying(Proj(s, t), p);
    }
    if p :| Flying(Proj(s, t), p) {
      assert p in Gives(s, t);
    }
  }

  lemma HoldersAre(s: State, t: TokenId)
    requires Shape(s)
    ensures Holders(s, t) == Owners(s, t) <==> forall i: nat :: i < |s.nodes| && Holds(View(s.nodes[i], t)) ==> Owner(View(s.nodes[i], t))
    ensures Owners(s, t) <= Holders(s, t)
    ensures |s.nodes| == s.n == |Proj(s, t).slots|
    ensures forall i: nat :: i < s.n ==> Proj(s, t).slots[i] == View(s.nodes[i], t)
  {
    forall i: nat | i < |s.nodes|
      ensures i in Holders(s, t) <==> Holds(View(s.nodes[i], t))
      ensures i in Owners(s, t) <==> Owner(View(s.nodes[i], t))
    {
    }
  }

  /** A handler that loses nothing: the token it had, got or made is owned there afterwards, or sent. */
  ghost predicate Careful(had: bool, s: Slot, outs: set<Out>) {
    (Holds(s) ==> Owner(s)) && (had ==> Owner(s) || exists o :: o in outs && o.msg.Give?)
  }

  lemma KeptStep(k: World, k': World, i: NodeId, s: Slot, used: set<Packet>, stamp: nat, outs: set<Out>, minted: bool)
    requires Single(k) && WellFormed(k') && Kept(k) && i < k.n && k' == Apply(k, i, s, used, stamp, outs).(minted := minted)
    requires Careful(Owner(k.slots[i]) || (exists p :: p in used && p.msg.Give?) || (!k.minted && minted), s, outs)
    ensures Kept(k')
  {
    if minted {
      if o :| o in outs && o.msg.Give? {
        assert Packet(i, o.dst, stamp, o.msg) in Stamped(i, stamp, outs);
        assert Flying(k', Packet(i, o.dst, stamp, o.msg));
      } else if Owner(s) {
        assert OwnedAt(k', i);
      } else {
        if x: nat :| OwnedAt(k, x) {
          assert OwnedAt(k', x);
        } else {
          var p :| Flying(k, p);
          assert Flying(k', p);
        }
      }
    }
  }

  lemma CarefulLock(c: Ctx, t: TokenId, s: Slot)
    requires SlotOk(c, s) && (Holds(s) ==> Owner(s))
    ensures Careful(Owner(s), RequestLock(c, t, s).0, RequestLock(c, t, s).1)
  {
  }

  lemma CarefulUnlock(c: Ctx, t: TokenId, s: Slot)
    requires SlotOk(c, s) && (Holds(s) ==> Owner(s))
    ensures Careful(Owner(s), RequestUnlock(c, t, s).0, RequestUnlock(c, t, s).1)
  {
    if s.priv.Some? && s.priv.value.locked {
      ReleaseFrame(s.priv.value.(locked := false), c.id, c.n);
      var (s', outs) := RequestUnlock(c, t, s);
      var r := Release(s.priv.value.(locked := false), c.id);
      if r.queue != [] {
        assert Out(r.queue[0], Give(t, TokenData(r.ln, r.queue[1..], {}, PropsOf(s.pub)))) in outs;
      }
    }
  }

  lemma CarefulRequest(c: Ctx, t: TokenId, s: Slot, from: NodeId, num: U32)
    requires SlotOk(c, s) && from < c.n && (Holds(s) ==> Owner(s))
    ensures Careful(Owner(s), GetRequest(c, t, s, from, num, {}).0, GetRequest(c, t, s, from, num, {}).1)
  {
    var (s', outs) := GetRequest(c, t, s, from, num, {});
    if outs != {} {
      var o :| o in outs;
      assert o.msg.Give?;
    }
  }

  lemma CarefulGive(c: Ctx, s: Slot, d: TokenData)
    requires Accepts(s)
    ensures Careful(true, GetGive(c, s, d), {})
  {
  }

  /** Settling an entry is careful unless it clears the owned flag, and then the token is gone. */
  lemma CarefulAdopt(c: Ctx, t: TokenId, s: Slot, exists_: bool)
    requires SlotOk(c, s) && (Holds(s) ==> Owner(s))
    ensures var minting := s.priv.Some? && !s.priv.value.created && !exists_;
      var clears := s.priv.Some? && !s.priv.value.created && exists_ && s.priv.value.owned;
      var (s', outs) := Adopt(c, t, s, exists_);
      if clears then !Owner(s') && forall o :: o in outs ==> !o.msg.Give? else Careful(Owner(s) || minting, s', outs)
  {
  }

  lemma CarefulUp(c: Ctx, t: TokenId, s: Slot)
    requires SlotOk(c, s) && (Holds(s) ==> Owner(s))
    ensures Careful(Owner(s), ComeUp(c, t, s).0, ComeUp(c, t, s).1)
  {
  }

  lemma CarefulDeclare(c: Ctx, s: Slot, props: Props, created: bool, owned: bool)
    requires Holds(s) ==> Owner(s)
    ensures Careful(Owner(s) || (s.priv.None? && s.pub.None? && owned), Declare(c, s, props, created, owned), {})
  {
  }

  lemma CarefulWrite(s: Slot, props: Props)
    requires Holds(s) ==> Owner(s)
    ensures Careful(Owner(s), s.(pub := Some(props)), {})
  {
  }

  // ---------------------------------------------------------------- one event

  /** The event clears the owned flag of a record that is open, of a monitor that exists. */
  predicate ClearsAt(k: World, e: Ev)
    requires Possible(k, e)
  {
    e.Settles? && k.minted && Open(k.slots[e.i]) && Owner(k.slots[e.i])
  }

  lemma KeptUp(k: World, i: NodeId)
    requires Single(k) && Kept(k) && i < k.n
    ensures Single(k.(up := k.up[i := true])) && Kept(k.(up := k.up[i := true]))
  {
    var k' := k.(up := k.up[i := true]);
    SingleUp(k, i);
    if x: nat :| OwnedAt(k, x) {
      assert OwnedAt(k', x);
    } else if p :| Flying(k, p) {
      assert Flying(k', p);
    }
  }

  /** The owner gives up the token without sending it: nobody has it any more. */
  lemma Gone(k: World, k': World, i: NodeId, s: Slot, stamp: nat, outs: set<Out>)
    requires Single(k) && i < k.n && Owner(k.slots[i]) && k.minted && !Owner(s) && k' == Apply(k, i, s, {}, stamp, outs).(minted := k'.minted)
    requires k'.minted && forall o :: o in outs ==> !o.msg.Give?
    ensures !Kept(k')
  {
    assert Holds(k.slots[i]);
    forall x: nat
      ensures !OwnedAt(k', x)
    {
      assert OwnedAt(k', x) ==> x != i && Holds(k.slots[x]);
    }
    forall p
      ensures !Flying(k', p)
    {
      if p in Stamped(i, stamp, outs) {
        OutIn(i, stamp, outs, p);
      }
      assert p in k.net ==> !p.msg.Give?;
    }
  }

  lemma OwnerOf(k: World, i: nat)
    requires Kept(k) && i < |k.slots|
    ensures Holds(k.slots[i]) ==> Owner(k.slots[i])
  {
  }

  /** The handlers lose nothing, but for the one branch. */
  lemma EffectCareful(k: World, e: Ev)
    requires Possible(k, e) && Kept(k) && !ClearsAt(k, e) && (e.Receives? ==> Accepts(k.slots[e.p.dst]))
    ensures Careful(Owner(k.slots[At(e)]) || e.Receives? || Creates(k, e), Effect(k, e).0, Effect(k, e).1)
  {
    hide Kept, RequestLock, RequestUnlock, GetRequest, GetGive, Adopt, ComeUp, Declare, Careful;
    var u := k.slots[At(e)];
    OwnerOf(k, At(e));
    match e
    case Nothing => CarefulNothing(u);
    case Locks(i) => CarefulLock(k.C(i), k.t, u);
    case Unlocks(i) => CarefulUnlock(k.C(i), k.t, u);
    case Writes(_, props) => CarefulWrite(u, props);
    case Declares(i, props, created, owned) => CarefulDeclare(k.C(i), u, props, created, owned);
    case Hears(p) => CarefulRequest(k.C(p.dst), k.t, u, p.src, p.msg.num);
    case Receives(p) => CarefulGive(k.C(p.dst), u, p.msg.data);
    case Settles(i) => CarefulAdopt(k.C(i), k.t, u, k.minted);
    case Rises(i) => CarefulUp(k.C(i).(up := true), k.t, u);
  }

  lemma CarefulNothing(s: Slot)
    requires Holds(s) ==> Owner(s)
    ensures Careful(Owner(s), s, {})
  {
  }

  /** An event loses the token exactly when it clears the owned flag. */
  lemma KeptAfter(k: World, e: Ev, stamp: nat)
    requires Single(k) && Kept(k) && Possible(k, e) && WellFormed(After(k, e, stamp))
    requires e.Receives? ==> Accepts(k.slots[e.p.dst])
    ensures Kept(After(k, e, stamp)) <==> !ClearsAt(k, e)
  {
    hide Single, Kept, Careful, RequestLock, RequestUnlock, GetRequest, GetGive, Adopt, ComeUp, Declare;
    var u := k.slots[At(e)];
    var (s, outs) := Effect(k, e);
    if ClearsAt(k, e) {
      OwnerOf(k, At(e));
      CarefulAdopt(k.C(e.i), k.t, u, k.minted);
      Gone(k, After(k, e, stamp), e.i, s, stamp, outs);
    } else {
      EffectCareful(k, e);
      KeptUp(k, At(e));
      var k0 := if e.Rises? then k.(up := k.up[At(e) := true]) else k;
      assert (exists p :: p in Uses(e) && p.msg.Give?) ==> e.Receives?;
      KeptStep(k0, After(k, e, stamp), At(e), s, Uses(e), stamp, outs, k.minted || Creates(k, e));
    }
  }

  // ---------------------------------------------------------------- one step

  lemma ClearsIs(s: State, a: Act, t: TokenId)
    requires SystemReady(s) && t.Monitor? && Enabled(s, a) && Possible(Proj(s, t), EventOf(s, a, t))
    ensures ClearsAt(Proj(s, t), EventOf(s, a, t)) <==> Clears(s, a, t)
  {
    hide SystemInv, Gate, Greetings, Carries, NodeOk, Registered, Complete, WellFormed;
    if a.Deliver? && a.p.msg.Give? && a.p.msg.t == System {
      SystemLists(s, a.p, t);
      assert Proj(s, t).slots[a.p.dst] == View(s.nodes[a.p.dst], t);
    }
  }

  /** A step loses the token of t exactly when it takes that branch. */
  lemma StepConserves(s: State, a: Act, t: TokenId)
    requires WReady(s, t) && Conserved(s, t) && Enabled(s, a)
    ensures Conserved(Step(s, a), t) <==> !Clears(s, a, t)
  {
    hide SystemReady, WInv, Step, Single, After, Kept, Conserved, Clears, ClearsAt;
    ReadySmall(s, t);
    WSingle(Proj(s, t));
    ConservedIsKept(s, t);
    SingleKept(s, a, t);
    AfterShape(s, a, t);
    StepShape(s, a);
    ConservedIsKept(Step(s, a), t);
    StepIs(s, a, t);
    WAfter(Proj(s, t), EventOf(s, a, t), s.clock);
    KeptAfter(Proj(s, t), EventOf(s, a, t), s.clock);
    ClearsIs(s, a, t);
  }

  // ---------------------------------------------------------------- runs

  lemma InitConserved(n: nat, bound: TokenId -> set<Str>, t: TokenId)
    requires n > 0 && t.Monitor?
    ensures Conserved(Init(n, bound), t)
  {
    var s := Init(n, bound);
    InitShape(n, bound);
    InitUnlisted(n, bound, t);
    assert Owners(s, t) == {} && Holders(s, t) == {} && Gives(s, t) == {};
  }

  ghost predicate ClearsIn(ss: seq<State>, acts: seq<Act>, j: nat, t: TokenId) {
    j < |acts| && j < |ss| && Shape(ss[j]) && Enabled(ss[j], acts[j]) && Clears(ss[j], acts[j], t)
  }

  /** In any run, up to step k: the token has been conserved in every state if and only if no step took the branch. */
  lemma {:induction false} ConservedExactly(informed: bool, ss: seq<State>, acts: seq<Act>, k: nat, t: TokenId)
    requires Run(informed, ss, acts) && k < |ss| && t.Monitor?
    ensures (forall j: nat :: j <= k ==> Conserved(ss[j], t)) <==> (forall j: nat :: j < k ==> !ClearsIn(ss, acts, j, t))
  {
    hide Run, Conserved, Clears, WReady, Step, Bounded, Informed, Shape, Enabled;
    RunLength(informed, ss, acts);
    if k == 0 {
      RunStart(informed, ss, acts);
      InitConserved(ss[0].n, ss[0].bound, t);
    } else {
      ConservedExactly(informed, ss, acts, k - 1, t);
      RunWReady(informed, ss, acts, k - 1, t);
      RunStep(informed, ss, acts, k - 1);
      if Conserved(ss[k - 1], t) {
        StepConserves(ss[k - 1], acts[k - 1], t);
      }
      var last: nat := k - 1;
      assert Conserved(ss[last], t) ==> (Conserved(ss[last + 1], t) <==> !ClearsIn(ss, acts, last, t));
    }
  }

  /** Under H the branch is never taken. */
  lemma InformedNeverClears(ss: seq<State>, acts: seq<Act>, k: nat, t: TokenId)
    requires Run(true, ss, acts) && k < |acts| && t.Monitor?
    ensures !ClearsIn(ss, acts, k, t)
  {
    hide Run, Barrier, Coupled, Inv, Single;
    RunLength(true, ss, acts);
    RunSound(ss, acts, k);
    RunShape(true, ss, acts, k);
    UncreatedUnowned(ss[k], t);
  }

  lemma UncreatedUnowned(s: State, t: TokenId)
    requires Shape(s) && UserInv(Proj(s, t), s.bound(t))
    ensures forall i: nat :: i < s.n && t in s.nodes[i].priv && !s.nodes[i].priv[t].created ==> !s.nodes[i].priv[t].owned
  {
    hide Inv;
    var k := Proj(s, t);
    forall i: nat | i < s.n && t in s.nodes[i].priv && !s.nodes[i].priv[t].created
      ensures !s.nodes[i].priv[t].owned
    {
      assert UserSlot(k.slots[i], s.n, k.up[i], k.minted, s.bound(t));
    }
  }
}
