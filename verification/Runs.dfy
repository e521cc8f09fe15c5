/** The invariants hold in every state of every run. */
module Runs {
  import opened Basics
  import opened Token
  import opened Slot
  import opened World
  import opened Cluster
  import opened Startup
  import opened Refinement
  import opened Monitors
  import opened Tokens
  import opened Coupling
  import opened Users
  import opened Exclusion

  // ---------------------------------------------------------------- the initial state

  lemma InitCoupled(n: nat, bound: TokenId -> set<Str>)
    requires n > 0
    ensures Coupled(Init(n, bound))
  {
    var s := Init(n, bound);
    InitShape(n, bound);
    forall t | t != System
      ensures !Registered(s, t)
    {
      InitUnlisted(n, bound, t);
    }
  }

  lemma InitUnlisted(n: nat, bound: TokenId -> set<Str>, t: TokenId)
    requires t != System
    ensures !Registered(Init(n, bound), t)
  {
    assert forall i: nat :: !ListedAt(Init(n, bound), i, t);
  }

  lemma InitUser(n: nat, bound: TokenId -> set<Str>, t: TokenId)
    requires n > 0 && t.Monitor?
    ensures UserInv(Proj(Init(n, bound), t), bound(t))
  {
    var s := Init(n, bound);
    var k := Proj(s, t);
    InitShape(n, bound);
    ProjShape(s, t);
    InitUnlisted(n, bound, t);
    assert k.net == {};
    assert forall i: nat :: i < n ==> k.slots[i] == Slot(None, None, false, false);
    Blank(k);
  }

  /** Before anything has happened. */
  lemma Blank(k: World)
    requires WellFormed(k) && k.net == {} && !k.minted
    requires forall i: nat :: i < k.n ==> k.slots[i] == Slot(None, None, false, false)
    ensures Inv(k)
  {
    assert forall i: nat :: !OwnedAt(k, i);
    assert forall p :: !Flying(k, p);
    PlaceNowhere(k);
  }

  lemma InitSystem(n: nat, bound: TokenId -> set<Str>)
    requires n > 0
    ensures SystemInv(Proj(Init(n, bound), System))
  {
    var s := Init(n, bound);
    var k := Proj(s, System);
    InitShape(n, bound);
    ProjShape(s, System);
    assert k.net == {};
    if n > 1 {
      assert forall i: nat :: i < n ==> k.slots[i] == Slot(None, None, false, false);
      Blank(k);
    } else {
      Alone(k);
    }
  }

  /** A cluster of one starts with the system token. */
  lemma Alone(k: World)
    requires WellFormed(k) && k.net == {} && k.minted && k.n == 1 && k.t == System
    requires k.slots[0] == Slot(Some(NewPriv(1, true, true)), None, false, false)
    ensures SystemInv(k)
  {
    assert OwnedAt(k, 0);
    PlaceAt(k, 0);
    assert Abs(k).reqs == {};
    assert SK.Accounts(Abs(k), [0], []);
  }

  lemma InitSound(n: nat, bound: TokenId -> set<Str>)
    requires n > 0
    ensures Sound(Init(n, bound))
  {
    hide Barrier, Coupled, SystemInv, UserInv;
    InitBarrier(n, bound);
    InitCoupled(n, bound);
    InitSystem(n, bound);
    forall t: TokenId | t.Monitor?
      ensures UserInv(Proj(Init(n, bound), t), bound(t)) && Single(Proj(Init(n, bound), t))
    {
      InitUser(n, bound, t);
      UserSingle(Proj(Init(n, bound), t), bound(t));
    }
  }

  lemma UserSingle(k: World, keys: set<Str>)
    requires UserInv(k, keys)
    ensures Single(k)
  {
  }

  // ---------------------------------------------------------------- steps

  lemma SafeKept(s: State, a: Act)
    requires Shape(s) && Safe(s) && Bounded(s) && Enabled(s, a)
    ensures Safe(Step(s, a))
  {
    hide Barrier, Coupled, SystemInv, Single, Step, Bounded, Shape, Proj;
    SafeReady(s);
    BarrierKept(s, a);
    SystemKept(s, a);
    CoupledKept(s, a);
    forall t: TokenId | t.Monitor?
      ensures Single(Proj(Step(s, a), t))
    {
      SingleKept(s, a, t);
    }
  }

  lemma SoundKept(s: State, a: Act)
    requires Shape(s) && Sound(s) && Bounded(s) && Enabled(s, a) && Informed(s, a)
    ensures Sound(Step(s, a))
    ensures forall t: TokenId :: t.Monitor? ==> UserMoves(s, Step(s, a), t)
  {
    hide Barrier, Coupled, SystemInv, Single, Step, UserInv, Safe, Bounded, Shape, Proj;
    SafeKept(s, a);
    SafeReady(s);
    StepBound(s, a);
    forall t: TokenId | t.Monitor?
      ensures UserMoves(s, Step(s, a), t) && UserInv(Proj(Step(s, a), t), s.bound(t))
    {
      UserKept(s, a, t);
    }
  }

  lemma SafeReady(s: State)
    requires Shape(s) && Safe(s) && Bounded(s)
    ensures SystemReady(s)
  {
  }

  lemma StepBound(s: State, a: Act)
    requires Shape(s) && Enabled(s, a)
    ensures Step(s, a).bound == s.bound && Step(s, a).n == s.n
  {
  }

  // ---------------------------------------------------------------- runs

  lemma RunStep(informed: bool, ss: seq<State>, acts: seq<Act>, k: nat)
    requires Run(informed, ss, acts) && k < |acts|
    ensures |ss| == |acts| + 1 && Next(informed, ss[k], acts[k], ss[k + 1])
  {
  }

  lemma RunLength(informed: bool, ss: seq<State>, acts: seq<Act>)
    requires Run(informed, ss, acts)
    ensures |ss| == |acts| + 1
  {
  }

  lemma RunStart(informed: bool, ss: seq<State>, acts: seq<Act>)
    requires Run(informed, ss, acts)
    ensures |ss| == |acts| + 1 && ss[0].n > 0 && ss[0] == Init(ss[0].n, ss[0].bound)
  {
  }

  lemma {:induction false} RunSafe(informed: bool, ss: seq<State>, acts: seq<Act>, k: nat)
    requires k < |ss| && Run(informed, ss, acts)
    ensures Safe(ss[k])
  {
    hide Safe, Sound, Bounded, Shape, Enabled, Informed, Step, Run;
    if k == 0 {
      RunStart(informed, ss, acts);
      InitSound(ss[0].n, ss[0].bound);
      SoundSafe(ss[0]);
    } else {
      RunLength(informed, ss, acts);
      RunSafe(informed, ss, acts, k - 1);
      RunStep(informed, ss, acts, k - 1);
      SafeKept(ss[k - 1], acts[k - 1]);
    }
  }

  lemma SoundSafe(s: State)
    requires Sound(s)
    ensures Safe(s) && Shape(s)
  {
  }

  lemma {:induction false} RunSound(ss: seq<State>, acts: seq<Act>, k: nat)
    requires Run(true, ss, acts) && k < |ss|
    ensures Sound(ss[k])
  {
    hide Sound, Bounded, Shape, Enabled, Informed, Step, Run;
    if k == 0 {
      RunStart(true, ss, acts);
      InitSound(ss[0].n, ss[0].bound);
    } else {
      RunLength(true, ss, acts);
      RunSound(ss, acts, k - 1);
      RunStep(true, ss, acts, k - 1);
      SoundKept(ss[k - 1], acts[k - 1]);
    }
  }

  lemma SafeBarrier(s: State)
    requires Safe(s)
    ensures Barrier(s) && Coupled(s)
  {
  }
}
