/** A replicated monitor behaves as one lock guarding one valuation, over whole runs. */
module SharedMonitor {
  import opened Basics
  import opened Properties
  import opened Slot
  import opened Node
  import opened World
  import opened UserEvents
  import opened Values
  import opened OneLock
  import opened Cluster
  import opened Startup
  import opened Monitors
  import opened Brackets
  import opened Tokens
  import opened Users
  import opened Exclusion
  import opened Runs
  import opened Theorems
  import opened Always

  // ---------------------------------------------------------------- the value, in every run

  /** What a minting step makes the monitor's value. */
  function MintedValue(s: State, a: Act, t: TokenId): Props
    requires Shape(s) && Enabled(s, a)
  {
    PropsOf(View(React(s, a).0, t).pub)
  }

  /** The last value written inside monitor t, or the one it was minted with. */
  ghost function LastWrite(ss: seq<State>, acts: seq<Act>, k: nat, t: TokenId): Option<Props>
    requires k <= |acts| && |ss| == |acts| + 1
  {
    if k == 0 then None
    else
      var a := acts[k - 1];
      if a.WriteAt? && a.t == t then Some(a.props)
      else if MintsAt(ss, acts, k - 1, t) then Some(MintedValue(ss[k - 1], a, t))
      else LastWrite(ss, acts, k - 1, t)
  }

  ghost predicate ValuedIn(s: State, t: TokenId, v: Option<Props>) {
    Valued(Proj(s, t), s.bound(t), v)
  }

  /** Minting in the cluster is creating in the monitor's own terms. */
  lemma MintsIs(s: State, a: Act, t: TokenId)
    requires SystemReady(s) && t.Monitor? && Enabled(s, a) && Is(s, a, t, EventOf(s, a, t))
    ensures var e := EventOf(s, a, t);
      && (Creates(Proj(s, t), e) <==> Mints(s, a, t))
      && (e.Writes? <==> a.WriteAt? && a.t == t) && (e.Writes? ==> e.props == a.props)
      && (Mints(s, a, t) ==> PropsOf(Effect(Proj(s, t), e).0.pub) == MintedValue(s, a, t))
  {
    hide SystemReady, SystemInv, Is, Creates, Mints, MintedValue, Effect, Step;
    match a {
      case NewMonitor(i, t0, props) =>
        if t0 == t {
          DeclareMints(s, a, t);
        } else {
          QuietMints(s, a, t);
        }
      case Deliver(p) =>
        if p.msg.Give? && p.msg.t == System {
          SettleMints(s, a, t);
        } else {
          QuietMints(s, a, t);
        }
      case _ => QuietMints(s, a, t);
    }
  }

  lemma QuietMints(s: State, a: Act, t: TokenId)
    requires SystemReady(s) && t.Monitor? && Enabled(s, a) && Is(s, a, t, EventOf(s, a, t))
    requires !(a.NewMonitor? && a.t == t) && !(a.Deliver? && a.p.msg.Give? && a.p.msg.t == System)
    ensures !Creates(Proj(s, t), EventOf(s, a, t)) && !Mints(s, a, t)
    ensures var e := EventOf(s, a, t); (e.Writes? <==> a.WriteAt? && a.t == t) && (e.Writes? ==> e.props == a.props)
  {
    hide SystemReady, Possible, View, EntryFlags, Step, After, Registered, Unsettled, Is;
  }

  lemma DeclareMints(s: State, a: Act, t: TokenId)
    requires SystemReady(s) && t.Monitor? && Enabled(s, a) && a.NewMonitor? && a.t == t && Is(s, a, t, EventOf(s, a, t))
    ensures var e := EventOf(s, a, t);
      && !e.Writes? && (Creates(Proj(s, t), e) <==> Mints(s, a, t))
      && (Mints(s, a, t) ==> PropsOf(Effect(Proj(s, t), e).0.pub) == MintedValue(s, a, t))
  {
    hide SystemInv, Gate, Greetings, Carries, NodeOk, Registered, Declare, AskFor, HandleNew, View, EntryFlags, Step;
    var v := s.nodes[a.i];
    assert Proj(s, t).slots[a.i] == View(v, t);
    NewViews(v, t, a.props);
    DeclareCtx(C(v), Proj(s, t).C(a.i), View(v, t), a.props, EntryFlags(v, t).0, EntryFlags(v, t).1);
  }

  lemma SettleMints(s: State, a: Act, t: TokenId)
    requires SystemReady(s) && t.Monitor? && Enabled(s, a) && a.Deliver? && a.p.msg.Give? && a.p.msg.t == System && Is(s, a, t, EventOf(s, a, t))
    ensures var e := EventOf(s, a, t);
      && !e.Writes? && (Creates(Proj(s, t), e) <==> Mints(s, a, t))
      && (Mints(s, a, t) ==> PropsOf(Effect(Proj(s, t), e).0.pub) == MintedValue(s, a, t))
  {
    hide SystemReady, Creates, Mints, Effect, Possible, Proj, Enabled, Shape, After, Step, React, View;
    SettleCreates(s, a, t);
    SettleValue(s, a, t);
  }

  lemma SettleCreates(s: State, a: Act, t: TokenId)
    requires SystemReady(s) && t.Monitor? && Enabled(s, a) && a.Deliver? && a.p.msg.Give? && a.p.msg.t == System
    requires Possible(Proj(s, t), EventOf(s, a, t))
    ensures Creates(Proj(s, t), EventOf(s, a, t)) <==> Mints(s, a, t)
  {
    hide SystemReady, Possible, Shape, Registered, View, Open, Accepts, Unsettled, SystemMoves, Proj, Enabled, Step, Barrier, Coupled;
    ReadyBarrier(s);
    DeliverIn(s, a.p);
    SystemGive(s, a.p);
    Receiving(s, a.p);
    SystemLists(s, a.p, t);
    SlotIs(s, t, a.p.dst);
    OpenIs(s.nodes[a.p.dst], t);
  }

  lemma SettleValue(s: State, a: Act, t: TokenId)
    requires SystemReady(s) && t.Monitor? && Enabled(s, a) && a.Deliver? && a.p.msg.Give? && a.p.msg.t == System
    requires Possible(Proj(s, t), EventOf(s, a, t))
    ensures Effect(Proj(s, t), EventOf(s, a, t)).0.pub == View(React(s, a).0, t).pub
  {
    hide SystemReady, Possible, Registered, View, Open, Accepts, Unsettled, SystemMoves, Adopt, GiveTokenIn, SlotOk, Proj, Enabled, Step, Barrier, Coupled, NodeOk;
    ReadyBarrier(s);
    DeliverIn(s, a.p);
    SystemGive(s, a.p);
    Receiving(s, a.p);
    SystemLists(s, a.p, t);
    SlotIs(s, t, a.p.dst);
    SystemGiveViews(s.nodes[a.p.dst], a.p.msg.data, t);
    SameAsk(s, a.p.dst, t, Proj(s, t).minted);
  }

  lemma DeliverIn(s: State, p: Packet)
    requires Shape(s) && Enabled(s, Deliver(p))
    ensures p in s.net && p.src < s.n && p.dst < s.n && Carries(s.n, p.msg) && NodeOk(s.nodes[p.dst]) && s.nodes[p.dst].n == s.n
  {
  }

  lemma ReadyBarrier(s: State)
    requires SystemReady(s)
    ensures Barrier(s) && Coupled(s) && Shape(s)
  {
  }

  lemma OpenIs(v: Node, t: TokenId)
    requires t != System
    ensures t in Unsettled(v) <==> Open(View(v, t))
  {
  }

  lemma StepValues(s: State, a: Act, t: TokenId, v: Option<Props>)
    requires WReady(s, t) && Enabled(s, a) && ValuedIn(s, t, v)
    ensures ValuedIn(Step(s, a), t, if a.WriteAt? && a.t == t then Some(a.props) else if Mints(s, a, t) then Some(MintedValue(s, a, t)) else v)
  {
    hide SystemReady, WInv, Step, Single, After, Valued, Mints, MintedValue;
    ReadySmall(s, t);
    WSingle(Proj(s, t));
    SingleKept(s, a, t);
    AfterShape(s, a, t);
    StepIs(s, a, t);
    StepBound(s, a);
    EventNames(s, a, t);
    WAfter(Proj(s, t), EventOf(s, a, t), s.clock);
    ValuedAfter(Proj(s, t), s.bound(t), EventOf(s, a, t), s.clock, v);
    MintsIs(s, a, t);
  }

  /** What is declared and written has the bound names. */
  lemma EventNames(s: State, a: Act, t: TokenId)
    requires Shape(s) && Enabled(s, a)
    ensures var e := EventOf(s, a, t); (e.Declares? || e.Writes?) ==> e.props.Keys == s.bound(t)
  {
  }

  lemma InitValued(n: nat, bound: TokenId -> set<Str>, t: TokenId)
    requires n > 0 && t.Monitor?
    ensures ValuedIn(Init(n, bound), t, None)
  {
    var s := Init(n, bound);
    InitShape(n, bound);
    ProjShape(s, t);
    InitUnlisted(n, bound, t);
    assert Proj(s, t).net == {};
    assert forall i: nat :: i < n ==> Proj(s, t).slots[i] == Slot(None, None, false, false);
  }

  /** In every state of every run, whoever has the monitor's token, and every packet that carries it, has the value last
      written inside. */
  lemma {:induction false} TokenHasLastWrite(informed: bool, ss: seq<State>, acts: seq<Act>, k: nat, t: TokenId)
    requires Run(informed, ss, acts) && k < |ss| && t.Monitor?
    ensures ValuedIn(ss[k], t, LastWrite(ss, acts, k, t))
  {
    hide Run, WReady, ValuedIn, Step, Bounded, Informed, Mints, MintedValue, Shape, Enabled;
    RunLength(informed, ss, acts);
    if k == 0 {
      RunStart(informed, ss, acts);
      InitValued(ss[0].n, ss[0].bound, t);
    } else {
      TokenHasLastWrite(informed, ss, acts, k - 1, t);
      RunWReady(informed, ss, acts, k - 1, t);
      RunStep(informed, ss, acts, k - 1);
      StepValues(ss[k - 1], acts[k - 1], t, LastWrite(ss, acts, k - 1, t));
    }
  }

  /** Sequential consistency, without H: a node inside the monitor sees the value last written inside it by any node, or
      the value the monitor was minted with when nobody has written yet. */
  lemma InsideSeesLastWrite(informed: bool, ss: seq<State>, acts: seq<Act>, k: nat, t: TokenId, i: NodeId)
    requires Run(informed, ss, acts) && k < |ss| && t.Monitor? && i < |ss[k].nodes| && Locked(ss[k], i, t)
    ensures t in ss[k].nodes[i].pub && LastWrite(ss, acts, k, t) == Some(ss[k].nodes[i].pub[t])
  {
    hide Run, LastWrite;
    RunLength(informed, ss, acts);
    TokenHasLastWrite(informed, ss, acts, k, t);
    RunShape(informed, ss, acts, k);
    LockedValue(ss[k], t, LastWrite(ss, acts, k, t), i);
  }

  lemma LockedValue(s: State, t: TokenId, v: Option<Props>, i: NodeId)
    requires Shape(s) && ValuedIn(s, t, v) && i < s.n && Locked(s, i, t)
    ensures t in s.nodes[i].pub && v == Some(s.nodes[i].pub[t])
  {
    assert Holds(Proj(s, t).slots[i]) && Declared(Proj(s, t).slots[i], s.bound(t));
  }

  lemma WriteInside(s: State, a: Act)
    requires Shape(s) && Enabled(s, a) && a.WriteAt?
    ensures a.i < |s.nodes| && Locked(s, a.i, a.t)
  {
  }

  /** While nobody is inside, the value stays what the last holder left: the next node to get in, whichever it is, has it. */
  lemma GrantSeesLastUnlock(informed: bool, ss: seq<State>, acts: seq<Act>, j: nat, k: nat, t: TokenId, h: NodeId, i: NodeId)
    requires Run(informed, ss, acts) && j < k < |ss| && t.Monitor? && h < |ss[j].nodes| && i < |ss[k].nodes|
    requires Locked(ss[j], h, t) && |ss| == |acts| + 1 && acts[j] == UnlockAt(h, t)
    requires forall m: nat, x: nat :: j < m < k && x < |ss[m].nodes| ==> !Locked(ss[m], x, t)
    requires Locked(ss[k], i, t)
    ensures t in ss[k].nodes[i].pub && t in ss[j].nodes[h].pub && ss[k].nodes[i].pub[t] == ss[j].nodes[h].pub[t]
  {
    hide Run, LastWrite;
    InsideSeesLastWrite(informed, ss, acts, j, t, h);
    InsideSeesLastWrite(informed, ss, acts, k, t, i);
    LockedExists(informed, ss, acts, j, t, h);
    ValueWaits(informed, ss, acts, j, k, t);
  }

  lemma LockedExists(informed: bool, ss: seq<State>, acts: seq<Act>, k: nat, t: TokenId, i: NodeId)
    requires Run(informed, ss, acts) && k < |ss| && t.Monitor? && i < |ss[k].nodes| && Locked(ss[k], i, t)
    ensures Registered(ss[k], t)
  {
    hide Run, Registered;
    RunSingle(informed, ss, acts, k, t);
    assert Holds(Proj(ss[k], t).slots[i]);
  }

  lemma {:induction false} ValueWaits(informed: bool, ss: seq<State>, acts: seq<Act>, j: nat, k: nat, t: TokenId)
    requires Run(informed, ss, acts) && j < k < |ss| && t.Monitor? && |ss| == |acts| + 1 && acts[j].UnlockAt? && Registered(ss[j], t)
    requires forall m: nat, x: nat :: j < m < k && x < |ss[m].nodes| ==> !Locked(ss[m], x, t)
    ensures LastWrite(ss, acts, k, t) == LastWrite(ss, acts, j, t)
  {
    hide Run, Locked, Registered, MintsAt, MintedValue, Step, Bounded, Informed, Shape, Enabled;
    var last: nat := k - 1;
    StaysRegistered(informed, ss, acts, j, last, t);
    NoMint(informed, ss, acts, last, t);
    if last > j {
      ValueWaits(informed, ss, acts, j, last, t);
      if acts[last].WriteAt? && acts[last].t == t {
        RunStep(informed, ss, acts, last);
        WriteInside(ss[last], acts[last]);
      }
    }
  }

  lemma NoMint(informed: bool, ss: seq<State>, acts: seq<Act>, k: nat, t: TokenId)
    requires Run(informed, ss, acts) && k < |acts| && t.Monitor? && k < |ss| && Registered(ss[k], t)
    ensures !MintsAt(ss, acts, k, t)
  {
    hide Run, Registered, Mints, Safe, Step, Bounded, Informed, SystemInv, Shape, Enabled, Coupled, Barrier;
    RunStep(informed, ss, acts, k);
    RunSafe(informed, ss, acts, k);
    SafeFacts(ss[k]);
    MintsOnlyNew(ss[k], acts[k], t);
  }

  // ---------------------------------------------------------------- the lock, under H

  ghost function LockIn(s: State, t: TokenId): SharedLock {
    LockOf(Proj(s, t))
  }

  /** One labelled step of the shared lock. Only minting makes it, free and with the minter's value; only a write inside
      changes the value; only its holder's unlock frees it; it is granted only where it was asked for, which uses the
      request up. */
  ghost predicate LockStep(s: State, a: Act, s': State, t: TokenId)
    requires Shape(s) && Enabled(s, a)
  {
    var l := LockIn(s, t);
    var l' := LockIn(s', t);
    if l.Absent? then
      if Mints(s, a, t) then l' == Lock(None, MintedValue(s, a, t)) else l'.Absent?
    else
      && !Mints(s, a, t) && l'.Lock?
      && l'.value == (if a.WriteAt? && a.t == t then a.props else l.value)
      && (l.holder.Some? ==> l'.holder == if a.UnlockAt? && a.t == t && a.i == l.holder.value then None else l.holder)
      && (l.holder.None? && l'.holder.Some? ==>
            var i := l'.holder.value;
            && Actor(a) == i < |s.nodes| && i < |s'.nodes|
            && ((a.LockAt? && a.t == t) || t in s.nodes[i].pendingGrants) && t !in s'.nodes[i].pendingGrants)
  }

  /** Every step of a run under H is one step of the shared lock. */
  lemma RunLockSteps(ss: seq<State>, acts: seq<Act>, k: nat, t: TokenId)
    requires Run(true, ss, acts) && k < |acts| && t.Monitor? && k < |ss| - 1 && Shape(ss[k]) && Enabled(ss[k], acts[k])
    ensures LockStep(ss[k], acts[k], ss[k + 1], t)
  {
    hide Run, UserInv, LockStep, Step, Mints, Bounded, Enabled, Shape, Single, SystemInv, Barrier, Coupled, WReady;
    RunSound(ss, acts, k);
    RunSound(ss, acts, k + 1);
    RunShape(true, ss, acts, k + 1);
    RunStep(true, ss, acts, k);
    SafeReady(ss[k]);
    StepBound(ss[k], acts[k]);
    LockSteps(ss[k], acts[k], t);
  }

  lemma LockSteps(s: State, a: Act, t: TokenId)
    requires SystemReady(s) && t.Monitor? && Enabled(s, a) && Informed(s, a)
    requires UserInv(Proj(s, t), s.bound(t)) && UserInv(Proj(Step(s, a), t), s.bound(t))
    ensures LockStep(s, a, Step(s, a), t)
  {
    hide SystemReady, UserInv, Step, After, LockMoves, LockOf, Mints, MintedValue, Creates;
    ReadySmall(s, t);
    StepIs(s, a, t);
    EventFits(s, a, t);
    LockAfter(Proj(s, t), s.bound(t), EventOf(s, a, t), s.clock);
    MintsIs(s, a, t);
    if EventOf(s, a, t).Nothing? {
      NothingHappens(Proj(s, t), s.clock);
    }
    LabelsFit(s, a, t, Step(s, a));
  }

  /** The labels of the step are those of the event. */
  lemma LabelsFit(s: State, a: Act, t: TokenId, s': State)
    requires Shape(s) && Enabled(s, a) && Possible(Proj(s, t), EventOf(s, a, t)) && t.Monitor?
    requires LockMoves(Proj(s, t), EventOf(s, a, t), Proj(s', t))
    requires var e := EventOf(s, a, t);
      && (Creates(Proj(s, t), e) <==> Mints(s, a, t))
      && (e.Writes? <==> a.WriteAt? && a.t == t) && (e.Writes? ==> e.props == a.props)
      && (Mints(s, a, t) ==> PropsOf(Effect(Proj(s, t), e).0.pub) == MintedValue(s, a, t))
    requires EventOf(s, a, t).Nothing? ==> LockIn(s', t) == LockIn(s, t)
    ensures LockStep(s, a, s', t)
  {
    hide LockOf, Creates, Mints, MintedValue, Effect, Possible, NodeOk, Carries;
    var l' := LockIn(s', t);
    EventLabels(s, a, t);
    if LockIn(s, t).Lock? && LockIn(s, t).holder.None? && l'.Lock? && l'.holder.Some? {
      var i := l'.holder.value;
      assert Proj(s, t).slots[i] == View(s.nodes[i], t);
      assert Proj(s', t).slots[i] == View(s'.nodes[i], t);
    }
  }

  lemma EventLabels(s: State, a: Act, t: TokenId)
    requires Shape(s) && Enabled(s, a)
    ensures var e := EventOf(s, a, t);
      && (e.Unlocks? <==> a.UnlockAt? && a.t == t) && (e.Locks? <==> a.LockAt? && a.t == t)
      && (!e.Nothing? ==> At(e) == Actor(a))
  {
  }

  /** In every state of a run under H the shared lock has the value last written inside it, wherever that was. */
  lemma LockHasLastWrite(ss: seq<State>, acts: seq<Act>, k: nat, t: TokenId)
    requires Run(true, ss, acts) && k < |ss| && t.Monitor?
    ensures var l := LockIn(ss[k], t);
      LastWrite(ss, acts, k, t) == if l.Absent? then None else Some(l.value)
  {
    hide Run, UserInv, LastWrite, Valued, Single, Shape, Proj, Safe;
    RunLength(true, ss, acts);
    RunSound(ss, acts, k);
    TokenHasLastWrite(true, ss, acts, k, t);
    LockValue(ss[k], t, LastWrite(ss, acts, k, t));
  }

  lemma LockValue(s: State, t: TokenId, v: Option<Props>)
    requires UserInv(Proj(s, t), s.bound(t)) && ValuedIn(s, t, v)
    ensures v == if LockIn(s, t).Absent? then None else Some(LockIn(s, t).value)
  {
    hide UserInv, Valued, Single, LockOf;
    LockParts(Proj(s, t), s.bound(t));
    ValuedOnce(Proj(s, t), s.bound(t), v);
  }
}
