/** What the cluster guarantees, for every number of nodes, every run and every monitor. */
module Theorems {
  import opened Basics
  import opened Slot
  import opened Node
  import opened World
  import opened Cluster
  import opened Startup
  import opened Refinement
  import opened Monitors
  import opened Tokens
  import opened Users
  import opened Runs

  // ---------------------------------------------------------------- where a token is

  /** The nodes with owned or locked set. */
  function Holders(s: State, t: TokenId): set<NodeId> {
    set i | i in Range(s.n) && i < |s.nodes| && Holds(View(s.nodes[i], t))
  }

  function Owners(s: State, t: TokenId): set<NodeId> {
    set i | i in Range(s.n) && i < |s.nodes| && Owner(View(s.nodes[i], t))
  }

  /** The GiveToken packets in flight. */
  function Gives(s: State, t: TokenId): set<Packet> {
    set p | p in s.net && p.msg.Give? && p.msg.t == t
  }

  lemma {:induction false} AllEqual<T>(a: set<T>)
    requires forall x, y :: x in a && y in a ==> x == y
    ensures |a| <= 1
  {
    if x :| x in a {
      assert a == {x};
    }
  }

  lemma RunSingle(informed: bool, ss: seq<State>, acts: seq<Act>, k: nat, t: TokenId)
    requires Run(informed, ss, acts) && k < |ss|
    ensures Shape(ss[k]) && Single(Proj(ss[k], t))
  {
    hide Run, Barrier, Coupled;
    RunSafe(informed, ss, acts, k);
    RunShape(informed, ss, acts, k);
  }

  /** The owned and locked flags set anywhere and the GiveToken packets in flight make at most one token,
      and none before it is minted. */
  lemma AtMostOneToken(informed: bool, ss: seq<State>, acts: seq<Act>, k: nat, t: TokenId)
    requires Run(informed, ss, acts) && k < |ss|
    ensures |Holders(ss[k], t)| + |Gives(ss[k], t)| <= if Minted(ss[k], t) then 1 else 0
  {
    hide Run, Shape;
    RunSingle(informed, ss, acts, k, t);
    CountSingle(ss[k], t);
  }

  lemma CountSingle(s: State, t: TokenId)
    requires Shape(s) && Single(Proj(s, t))
    ensures |Holders(s, t)| + |Gives(s, t)| <= if Minted(s, t) then 1 else 0
  {
    var k := Proj(s, t);
    assert forall i :: i in Holders(s, t) ==> i < k.n && Holds(k.slots[i]);
    assert forall p :: p in Gives(s, t) ==> p in k.net;
    AllEqual(Holders(s, t));
    AllEqual(Gives(s, t));
    if i, p :| i in Holders(s, t) && p in Gives(s, t) {
      assert false;
    }
    assert Holders(s, t) == {} || Gives(s, t) == {};
  }

  /** Mutual exclusion: no two nodes are inside the same monitor. */
  lemma MutualExclusion(informed: bool, ss: seq<State>, acts: seq<Act>, k: nat, t: TokenId, i: NodeId, j: NodeId)
    requires Run(informed, ss, acts) && k < |ss| && i < |ss[k].nodes| && j < |ss[k].nodes|
    requires Locked(ss[k], i, t) && Locked(ss[k], j, t)
    ensures i == j
  {
    hide Run, Shape;
    RunSingle(informed, ss, acts, k, t);
    LockedHolds(ss[k], i, j, t);
  }

  lemma LockedHolds(s: State, i: NodeId, j: NodeId, t: TokenId)
    requires Shape(s) && Single(Proj(s, t)) && i < |s.nodes| && j < |s.nodes| && Locked(s, i, t) && Locked(s, j, t)
    ensures i == j
  {
    assert Holds(Proj(s, t).slots[i]) && Holds(Proj(s, t).slots[j]);
  }

  // ---------------------------------------------------------------- startup

  ghost predicate Active(s: State) {
    (exists i: nat :: i < |s.nodes| && s.nodes[i].startedCluster) || (exists p :: p in s.net && !p.msg.Handshake?)
  }

  /** Once some node takes the cluster for started, or a protocol packet is in flight, every node has started and is
      connected to all others: no handler drops a RequestToken or GiveToken for want of m_started. */
  lemma StartupBarrier(informed: bool, ss: seq<State>, acts: seq<Act>, k: nat)
    requires Run(informed, ss, acts) && k < |ss|
    ensures var s := ss[k];
      Active(s) ==>
        forall j: nat :: j < |s.nodes| ==> s.nodes[j].started && s.nodes[j].peers == Others(s.n, j) && |s.nodes[j].peers| == s.n - 1
  {
    hide Run, Safe;
    RunSafe(informed, ss, acts, k);
    SafeBarrier(ss[k]);
    hide *;
    if Active(ss[k]) {
      BarrierMeans(ss[k]);
    }
  }

  lemma BarrierMeans(s: State)
    requires Barrier(s) && Active(s)
    ensures forall j: nat :: j < |s.nodes| ==> s.nodes[j].started && s.nodes[j].peers == Others(s.n, j) && |s.nodes[j].peers| == s.n - 1
  {
    forall j: nat | j < |s.nodes|
      ensures s.nodes[j].started && s.nodes[j].peers == Others(s.n, j) && |s.nodes[j].peers| == s.n - 1
    {
      assert AllStarted(s) && Greeted(s, j);
      OthersSize(s.n, j);
    }
  }

  // ---------------------------------------------------------------- minting

  /** The copy of the monitor set that travels with the system token lists exactly the monitors that exist, and every
      other copy lists existing monitors only. */
  lemma MonitorSets(informed: bool, ss: seq<State>, acts: seq<Act>, k: nat)
    requires Run(informed, ss, acts) && k < |ss|
    ensures var s := ss[k];
      && (forall i: nat, t :: i < |s.nodes| && t in s.nodes[i].monitors ==> t != System && Registered(s, t))
      && (forall i: nat :: i < |s.nodes| && OwnsSystem(s.nodes[i]) ==> forall t :: t != System ==> (t in s.nodes[i].monitors <==> Registered(s, t)))
      && (forall p :: p in Gives(s, System) ==> forall t :: t != System ==> (t in p.msg.data.monitors <==> Registered(s, t)))
  {
    hide Run, Safe;
    RunSafe(informed, ss, acts, k);
    SafeBarrier(ss[k]);
    SetsOf(ss[k]);
  }

  lemma SetsOf(s: State)
    requires Coupled(s)
    ensures forall i: nat, t :: i < |s.nodes| && t in s.nodes[i].monitors ==> t != System && Registered(s, t)
    ensures forall i: nat :: i < |s.nodes| && OwnsSystem(s.nodes[i]) ==> forall t :: t != System ==> (t in s.nodes[i].monitors <==> Registered(s, t))
    ensures forall p :: p in Gives(s, System) ==> forall t :: t != System ==> (t in p.msg.data.monitors <==> Registered(s, t))
  {
    hide Registered, NodeOk, Carries;
    forall i: nat, t | i < |s.nodes| && t in s.nodes[i].monitors
      ensures t != System && Registered(s, t)
    {
      assert ListedAt(s, i, t);
      RegisteredFrom(s, i, t);
    }
  }

  /** A step mints only what does not exist yet, and what exists goes on existing. */
  lemma MintsOnlyNew(s: State, a: Act, t: TokenId)
    requires Shape(s) && Coupled(s) && Enabled(s, a) && t.Monitor? && SystemInv(Proj(s, System))
    ensures Mints(s, a, t) ==> !Registered(s, t) && Registered(Step(s, a), t)
    ensures Registered(s, t) ==> Registered(Step(s, a), t)
  {
    hide Registered, React, NodeOk, Carries, SystemInv;
    RegisteredAfter(s, a, t);
    if Mints(s, a, t) && a.NewMonitor? {
      FlagsAgree(s, a.i, t);
    }
  }

  lemma {:induction false} StaysRegistered(informed: bool, ss: seq<State>, acts: seq<Act>, j: nat, k: nat, t: TokenId)
    requires Run(informed, ss, acts) && j <= k < |ss| && t.Monitor? && Registered(ss[j], t)
    ensures Registered(ss[k], t)
  {
    hide Run, Registered, Mints, Safe, SystemInv, Coupled, Barrier, Shape, Enabled, Step, Bounded, Informed;
    if j < k {
      StaysRegistered(informed, ss, acts, j, k - 1, t);
      RunLength(informed, ss, acts);
      RunStep(informed, ss, acts, k - 1);
      RunSafe(informed, ss, acts, k - 1);
      SafeFacts(ss[k - 1]);
      MintsOnlyNew(ss[k - 1], acts[k - 1], t);
    }
  }

  lemma SafeFacts(s: State)
    requires Safe(s)
    ensures Barrier(s) && Coupled(s) && SystemInv(Proj(s, System))
  {
  }

  /** Step j of a run mints t. */
  ghost predicate MintsAt(ss: seq<State>, acts: seq<Act>, j: nat, t: TokenId) {
    j < |acts| && j < |ss| && Shape(ss[j]) && Enabled(ss[j], acts[j]) && Mints(ss[j], acts[j], t)
  }

  /** A monitor is minted at most once in a run. */
  lemma MintedAtMostOnce(informed: bool, ss: seq<State>, acts: seq<Act>, j: nat, k: nat, t: TokenId)
    requires Run(informed, ss, acts) && t.Monitor? && MintsAt(ss, acts, j, t) && MintsAt(ss, acts, k, t)
    ensures j == k
  {
    hide Run, Registered, Mints, Safe, SystemInv, Coupled, Barrier, Shape, Enabled, Step, Bounded, Informed;
    RunStep(informed, ss, acts, j);
    RunStep(informed, ss, acts, k);
    RunSafe(informed, ss, acts, j);
    RunSafe(informed, ss, acts, k);
    SafeFacts(ss[j]);
    SafeFacts(ss[k]);
    MintsOnlyNew(ss[j], acts[j], t);
    MintsOnlyNew(ss[k], acts[k], t);
    if j < k {
      StaysRegistered(informed, ss, acts, j + 1, k, t);
    } else if k < j {
      StaysRegistered(informed, ss, acts, k + 1, j, t);
    }
  }

  // ---------------------------------------------------------------- conservation

  /** The token invariant: for the system token in every run, for user monitors when only informed nodes lock. */
  lemma RunInv(informed: bool, ss: seq<State>, acts: seq<Act>, k: nat, t: TokenId)
    requires Run(informed, ss, acts) && k < |ss| && (informed || t == System)
    ensures Shape(ss[k]) && Inv(Proj(ss[k], t))
  {
    hide Run, Shape, Barrier, Coupled, Inv, Single;
    RunSafe(informed, ss, acts, k);
    RunShape(informed, ss, acts, k);
    if t.Monitor? {
      RunSound(ss, acts, k);
    }
  }

  /** From its minting on a token is owned by exactly one node or is in exactly one packet, and whoever is locked owns it. */
  lemma ExactlyOneToken(informed: bool, ss: seq<State>, acts: seq<Act>, k: nat, t: TokenId)
    requires Run(informed, ss, acts) && k < |ss| && (informed || t == System)
    ensures |Owners(ss[k], t)| + |Gives(ss[k], t)| == if Minted(ss[k], t) then 1 else 0
    ensures Holders(ss[k], t) == Owners(ss[k], t)
  {
    hide Run, Shape;
    RunInv(informed, ss, acts, k, t);
    CountExact(ss[k], t);
  }

  lemma CountExact(s: State, t: TokenId)
    requires Shape(s) && Inv(Proj(s, t))
    ensures |Owners(s, t)| + |Gives(s, t)| == if Minted(s, t) then 1 else 0
    ensures Holders(s, t) == Owners(s, t)
  {
    hide Inv, Shape, Proj, Minted, Holders, Owners, Gives;
    InvSingle(s, t);
    CountSingle(s, t);
    HoldersOwn(s, t);
    if Minted(s, t) {
      SomeToken(s, t);
    }
  }

  lemma InvSingle(s: State, t: TokenId)
    requires Shape(s) && Inv(Proj(s, t))
    ensures Single(Proj(s, t))
  {
  }

  lemma HoldersOwn(s: State, t: TokenId)
    requires Shape(s) && Inv(Proj(s, t))
    ensures Holders(s, t) == Owners(s, t)
  {
    hide SK.Inv, AtMostOne, Place;
    var k := Proj(s, t);
    forall i | i in Holders(s, t)
      ensures i in Owners(s, t)
    {
      assert FlagsOk(k.slots[i], k.up[i]);
    }
  }

  lemma SomeToken(s: State, t: TokenId)
    requires Shape(s) && Inv(Proj(s, t)) && Minted(s, t)
    ensures Owners(s, t) != {} || Gives(s, t) != {}
  {
    hide SK.Inv, AtMostOne, Place, Minted;
    var k := Proj(s, t);
    if Place(k).At? {
      AtMeans(k);
      assert Place(k).h in Owners(s, t);
    } else {
      var p := ToMeans(k);
      assert p in Gives(s, t);
    }
  }

  lemma AcceptedThere(s: State, p: Packet)
    requires Shape(s) && p in s.net && p.msg.Give? && Inv(Proj(s, p.msg.t))
    ensures Accepts(View(s.nodes[p.dst], p.msg.t)) && p.msg.t in s.nodes[p.dst].pendingRequests
  {
    hide Inv;
    assert p in Proj(s, p.msg.t).net;
    Welcome(Proj(s, p.msg.t), p);
  }

  // ---------------------------------------------------------------- request numbers

  /** The number of i's latest request that j knows of. */
  function Num(s: State, j: NodeId, i: NodeId, t: TokenId): nat
    requires Shape(s) && j < s.n && i < s.n
  {
    if t in s.nodes[j].priv then s.nodes[j].priv[t].rn[i] else 0
  }

  lemma NumIsRow(s: State, t: TokenId)
    requires Shape(s)
    ensures var a := Abs(Proj(s, t));
      |a.rn| == s.n && forall j: nat, i: nat :: j < s.n && i < s.n ==> |a.rn[j]| == s.n && a.rn[j][i] == Num(s, j, i, t)
  {
  }

  lemma BracketOf(s: State, t: TokenId)
    requires Shape(s) && Inv(Proj(s, t))
    ensures var a := Abs(Proj(s, t));
      && SK.Shaped(a) && SK.Bracket(a) && a.place == Place(Proj(s, t)) && a.n == s.n
      && (!a.place.Nowhere? ==> SK.Accounts(a, a.place.ln, a.place.q))
      && (forall p :: p in s.net && p.msg.Request? && p.msg.t == t ==> SK.Req(p.src, p.dst, p.msg.num) in a.reqs)
  {
    hide Place;
    var k := Proj(s, t);
    forall p | p in s.net && p.msg.Request? && p.msg.t == t
      ensures SK.Req(p.src, p.dst, p.msg.num) in Abs(k).reqs
    {
      assert p in k.net;
    }
  }

  lemma OwnerPlace(s: State, t: TokenId, i: NodeId)
    requires Shape(s) && Inv(Proj(s, t)) && i < s.n && Owner(View(s.nodes[i], t))
    ensures var p := s.nodes[i].priv[t]; Place(Proj(s, t)) == SK.At(i, p.ln, p.queue, p.locked)
  {
    assert OwnedAt(Proj(s, t), i);
    PlaceAt(Proj(s, t), i);
  }

  // ---------------------------------------------------------------- the queue

  /** The queue, held or travelling, holds distinct nodes with an open request, never the holder or the addressee;
      a token owned and not in use has nobody queued and no known request unserved. */
  lemma QueueValid(informed: bool, ss: seq<State>, acts: seq<Act>, k: nat, t: TokenId)
    requires Run(informed, ss, acts) && k < |ss| && Shape(ss[k]) && (informed || t == System)
    ensures var s := ss[k];
      var place := Place(Proj(s, t));
      !place.Nowhere? ==>
        && |place.ln| == s.n && place.h < s.n
        && NoDup(place.q) && place.h !in place.q && |place.q| <= s.n - 1
        && (forall x: nat :: x in place.q ==> x < s.n && Num(s, x, x, t) == place.ln[x] + 1)
        && (place.To? ==> Num(s, place.h, place.h, t) == place.ln[place.h] + 1)
        && (place.At? && !place.busy ==> place.q == [] && forall x: nat :: x < s.n ==> Num(s, place.h, x, t) <= place.ln[x])
  {
    hide Run, Inv, Place;
    RunInv(informed, ss, acts, k, t);
    NumIsRow(ss[k], t);
    PlaceOkOf(ss[k], t);
    var place := Place(Proj(ss[k], t));
    if !place.Nowhere? {
      NoDupLength(place.q, ss[k].n, place.h);
    }
  }

  lemma PlaceOkOf(s: State, t: TokenId)
    requires Shape(s) && Inv(Proj(s, t))
    ensures var a := Abs(Proj(s, t));
      SK.Shaped(a) && SK.PlaceOk(a) && a.place == Place(Proj(s, t)) && a.n == s.n
  {
    hide Place;
  }

  // ---------------------------------------------------------------- no request is lost

  ghost predicate RequestTo(s: State, i: NodeId, j: NodeId, num: nat, t: TokenId) {
    exists p :: p in s.net && p.src == i && p.dst == j && p.msg.Request? && p.msg.t == t && p.msg.num == num
  }

  /** A request that the token has not served is queued, or on its way to the token's place, or known there, and then
      the token is in use or about to arrive, so that the next release will queue it. */
  lemma NoLostRequest(informed: bool, ss: seq<State>, acts: seq<Act>, k: nat, t: TokenId, i: NodeId)
    requires Run(informed, ss, acts) && k < |ss| && Shape(ss[k]) && (informed || t == System) && i < ss[k].n
    requires var place := Place(Proj(ss[k], t));
      !place.Nowhere? && place.h != i && |place.ln| == ss[k].n && Num(ss[k], i, i, t) == place.ln[i] + 1
    ensures var s := ss[k];
      var place := Place(Proj(s, t));
      && place.h < s.n
      && (i in place.q || RequestTo(s, i, place.h, Num(s, i, i, t), t)
          || (Num(s, place.h, i, t) == Num(s, i, i, t)
              && if place.At? then place.busy else t in s.nodes[place.h].pendingRequests))
  {
    hide Run, Inv, Place;
    RunInv(informed, ss, acts, k, t);
    NumIsRow(ss[k], t);
    PlaceOkOf(ss[k], t);
    AnnouncedOf(ss[k], t);
    var s := ss[k];
    var a := Abs(Proj(s, t));
    if SK.Req(i, a.place.h, a.rn[i][i]) in a.reqs {
      RequestFlies(s, i, a.place.h, a.rn[i][i], t);
    } else {
      assert a.rn[a.place.h][i] == a.rn[i][i];
      assert a.place.To? ==> a.asking[a.place.h];
    }
  }

  lemma AnnouncedOf(s: State, t: TokenId)
    requires Shape(s) && Inv(Proj(s, t))
    ensures var a := Abs(Proj(s, t));
      && SK.Shaped(a) && SK.Announced(a) && a.n == s.n
      && (forall i: nat :: i < s.n ==> (a.asking[i] <==> t in s.nodes[i].pendingRequests && s.nodes[i].startedCluster))
  {
    hide Place, SK.Bracket, SK.PlaceOk, Reqs, Row;
  }

  lemma RequestFlies(s: State, i: NodeId, j: NodeId, num: nat, t: TokenId)
    requires Shape(s) && SK.Req(i, j, num) in Abs(Proj(s, t)).reqs
    ensures RequestTo(s, i, j, num, t)
  {
    var p :| p in Proj(s, t).net && p.msg.Request? && SK.Req(p.src, p.dst, p.msg.num) == SK.Req(i, j, num);
    assert p in s.net;
  }

  /** With nothing about the token in flight and nobody inside the monitor, every request has been served. */
  lemma QuietMeansServed(informed: bool, ss: seq<State>, acts: seq<Act>, k: nat, t: TokenId, i: NodeId)
    requires Run(informed, ss, acts) && k < |ss| && Shape(ss[k]) && (informed || t == System) && i < ss[k].n
    requires forall p :: p in ss[k].net ==> !About(p.msg, t)
    requires forall j: nat :: j < ss[k].n ==> !Locked(ss[k], j, t)
    ensures t !in ss[k].nodes[i].pendingRequests || !ss[k].nodes[i].startedCluster
    ensures var place := Place(Proj(ss[k], t));
      if place.At? then |place.ln| == ss[k].n && Num(ss[k], i, i, t) == place.ln[i] else Num(ss[k], i, i, t) == 0
  {
    hide Run, Inv, Place;
    var s := ss[k];
    RunInv(informed, ss, acts, k, t);
    NumIsRow(s, t);
    PlaceOkOf(s, t);
    AnnouncedOf(s, t);
    NothingThere(s, t);
    var a := Abs(Proj(s, t));
    if a.place.At? {
      assert !a.place.busy && a.reqs == {};
      assert a.place.h != i ==> a.rn[a.place.h][i] == a.rn[i][i];
    }
  }

  lemma NothingThere(s: State, t: TokenId)
    requires Shape(s) && Inv(Proj(s, t))
    requires forall p :: p in s.net ==> !About(p.msg, t)
    requires forall j: nat :: j < s.n ==> !Locked(s, j, t)
    ensures var k := Proj(s, t); Abs(k).reqs == {} && !Place(k).To? && (Place(k).At? ==> !Place(k).busy)
  {
    hide Inv, AtMostOne, Place;
    var k := Proj(s, t);
    InvShape(k);
    assert k.net == {};
    if Place(k).At? {
      AtMeans(k);
      assert !Locked(s, Place(k).h, t);
    } else if Place(k).To? {
      var p := ToMeans(k);
    }
  }
}
