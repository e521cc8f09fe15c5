/** What every run keeps for every token, whoever locks what and when. */
module Always {
  import opened Basics
  import opened Token
  import opened Slot
  import opened Node
  import opened World
  import opened Cluster
  import opened Startup
  import opened Refinement
  import opened Monitors
  import opened Tokens
  import opened UserEvents
  import opened Users
  import opened Exclusion
  import opened Runs
  import opened Theorems
  import opened Brackets
  import opened Attention

  // ---------------------------------------------------------------- every step

  /** What holds of a user monitor before every step of any run. */
  ghost predicate WReady(s: State, t: TokenId) {
    SystemReady(s) && t.Monitor? && WInv(Proj(s, t)) && Mail(Proj(s, t))
  }

  lemma WSingle(k: World)
    requires WInv(k)
    ensures Single(k)
  {
  }

  lemma WKept(s: State, a: Act, t: TokenId)
    requires WReady(s, t) && Enabled(s, a)
    ensures WInv(Proj(Step(s, a), t)) && Mail(Proj(Step(s, a), t))
  {
    hide SystemReady, WInv, Mail, Step, Single, After;
    ReadySmall(s, t);
    WSingle(Proj(s, t));
    SingleKept(s, a, t);
    StepIs(s, a, t);
    WAfter(Proj(s, t), EventOf(s, a, t), s.clock);
    AfterShape(s, a, t);
    MailAfter(Proj(s, t), EventOf(s, a, t), s.clock);
  }

  // ---------------------------------------------------------------- runs

  lemma InitW(n: nat, bound: TokenId -> set<Str>, t: TokenId)
    requires n > 0 && t.Monitor?
    ensures WInv(Proj(Init(n, bound), t)) && Mail(Proj(Init(n, bound), t))
  {
    var s := Init(n, bound);
    var k := Proj(s, t);
    InitShape(n, bound);
    ProjShape(s, t);
    InitUnlisted(n, bound, t);
    assert k.net == {};
    assert forall i: nat :: i < n ==> k.slots[i] == Slot(None, None, false, false);
    BlankW(k);
    BlankMail(k);
  }

  predicate IsBlank(k: World) {
    WellFormed(k) && k.net == {} && !k.minted && k.t.Monitor? && forall i: nat :: i < k.n ==> k.slots[i] == Slot(None, None, false, false)
  }

  lemma BlankRows(k: World)
    requires IsBlank(k)
    ensures Nums(k) == seq(k.n, _ => 0)
    ensures forall i: nat :: i < k.n ==> Row(k.slots[i], k.n) == seq(k.n, _ => 0)
  {
  }

  lemma BlankW(k: World)
    requires IsBlank(k)
    ensures WInv(k)
  {
    hide Fit, Row;
    BlankRows(k);
  }

  lemma BlankMail(k: World)
    requires IsBlank(k)
    ensures Mail(k)
  {
    hide SlotOk, Row;
    BlankRows(k);
  }

  lemma {:induction false} RunW(informed: bool, ss: seq<State>, acts: seq<Act>, k: nat, t: TokenId)
    requires k < |ss| && Run(informed, ss, acts) && t.Monitor?
    ensures Shape(ss[k]) && WInv(Proj(ss[k], t)) && Mail(Proj(ss[k], t))
  {
    hide WInv, Mail, Safe, Bounded, Enabled, Informed, Step, Run, Proj, Shape;
    RunShape(informed, ss, acts, k);
    if k == 0 {
      RunStart(informed, ss, acts);
      InitW(ss[0].n, ss[0].bound, t);
    } else {
      RunLength(informed, ss, acts);
      RunW(informed, ss, acts, k - 1, t);
      RunStep(informed, ss, acts, k - 1);
      RunSafe(informed, ss, acts, k - 1);
      WNext(ss[k - 1], acts[k - 1], t);
    }
  }

  lemma WNext(s: State, a: Act, t: TokenId)
    requires Shape(s) && Safe(s) && Bounded(s) && Enabled(s, a) && t.Monitor? && WInv(Proj(s, t)) && Mail(Proj(s, t))
    ensures WInv(Proj(Step(s, a), t)) && Mail(Proj(Step(s, a), t))
  {
    hide WInv, Mail, Safe, Bounded, SystemReady, Enabled, Step, Proj, Shape;
    SafeReady(s);
    WKept(s, a, t);
  }

  // ---------------------------------------------------------------- for every token in every run

  /** The token is at node h with this LN and Q. */
  ghost predicate TokenAt(s: State, t: TokenId, h: NodeId, ln: seq<nat>, q: seq<NodeId>) {
    h < |s.nodes| && Holds(View(s.nodes[h], t)) && ln == s.nodes[h].priv[t].ln && q == s.nodes[h].priv[t].queue
  }

  /** The token is in a packet to node h. */
  ghost predicate TokenTo(s: State, t: TokenId, h: NodeId, ln: seq<nat>, q: seq<NodeId>) {
    exists p :: p in Gives(s, t) && p.dst == h && p.msg.data.ln == ln && p.msg.data.queue == q
  }

  /** Request numbers: nobody knows of a request its sender has not made. */
  ghost predicate NumbersOk(s: State, t: TokenId)
    requires Shape(s)
  {
    && (forall i: nat, j: nat :: i < s.n && j < s.n ==> Num(s, j, i, t) <= Num(s, i, i, t))
    && (forall p :: p in s.net && p.msg.Request? && p.msg.t == t ==> 1 <= p.msg.num <= Num(s, p.src, p.src, t))
  }

  /** LN is exact up to one open request a node, and Q holds distinct nodes with an open request, not h itself. */
  ghost predicate Orderly(s: State, t: TokenId, h: NodeId, ln: seq<nat>, q: seq<NodeId>)
    requires Shape(s)
  {
    && |ln| == s.n && h < s.n
    && (forall i: nat :: i < s.n ==> ln[i] <= Num(s, i, i, t) <= ln[i] + 1)
    && NoDup(q) && h !in q && |q| <= s.n - 1
    && (forall x: nat :: x in q ==> x < s.n && Num(s, x, x, t) == ln[x] + 1)
  }

  lemma NumOfNums(s: State, t: TokenId, i: NodeId, j: NodeId)
    requires Shape(s) && i < s.n && j < s.n
    ensures var k := Proj(s, t); WellFormed(k) && Row(k.slots[j], k.n)[i] == Num(s, j, i, t) && Nums(k)[i] == Num(s, i, i, t)
  {
    ProjShape(s, t);
  }

  lemma NumbersAlways(informed: bool, ss: seq<State>, acts: seq<Act>, k: nat, t: TokenId)
    requires Run(informed, ss, acts) && k < |ss|
    ensures Shape(ss[k]) && NumbersOk(ss[k], t)
  {
    hide Run, Inv, WInv, Shape, Num;
    if t == System {
      RunInv(informed, ss, acts, k, t);
      SystemNumbers(ss[k]);
    } else {
      RunW(informed, ss, acts, k, t);
      UserNumbers(ss[k], t);
    }
  }

  lemma SystemNumbers(s: State)
    requires Shape(s) && Inv(Proj(s, System))
    ensures NumbersOk(s, System)
  {
    hide Inv;
    NumIsRow(s, System);
    BracketOf(s, System);
  }

  lemma UserNumbers(s: State, t: TokenId)
    requires Shape(s) && WInv(Proj(s, t))
    ensures NumbersOk(s, t)
  {
    hide WInv, AtMostOne;
    var k := Proj(s, t);
    forall i: nat, j: nat | i < s.n && j < s.n
      ensures Num(s, j, i, t) <= Num(s, i, i, t)
    {
      WParts(k, j);
      NumOfNums(s, t, i, j);
    }
    forall p | p in s.net && p.msg.Request? && p.msg.t == t
      ensures 1 <= p.msg.num <= Num(s, p.src, p.src, t)
    {
      WParts(k, p.src);
      NumOfNums(s, t, p.src, p.src);
      assert p in k.net;
    }
  }

  /** Wherever the token is, its LN and Q are orderly; if it is idle nobody is queued, and if it is on its way its
      addressee still wants it. */
  lemma OrderlyAlways(informed: bool, ss: seq<State>, acts: seq<Act>, k: nat, t: TokenId, h: NodeId, ln: seq<nat>, q: seq<NodeId>)
    requires Run(informed, ss, acts) && k < |ss| && Shape(ss[k])
    requires TokenAt(ss[k], t, h, ln, q) || TokenTo(ss[k], t, h, ln, q)
    ensures Orderly(ss[k], t, h, ln, q)
    ensures TokenAt(ss[k], t, h, ln, q) && !Locked(ss[k], h, t) ==> q == []
    ensures TokenTo(ss[k], t, h, ln, q) ==> Num(ss[k], h, h, t) == ln[h] + 1
  {
    hide Run, Inv, WInv, Orderly, TokenAt, TokenTo, Num, Locked;
    var s := ss[k];
    if t == System {
      RunInv(informed, ss, acts, k, t);
      if TokenAt(s, t, h, ln, q) {
        SystemAt(s, h, ln, q);
      }
      if TokenTo(s, t, h, ln, q) {
        SystemTo(s, h, ln, q);
      }
    } else {
      RunW(informed, ss, acts, k, t);
      if TokenAt(s, t, h, ln, q) {
        UserAt(s, t, h, ln, q);
      }
      if TokenTo(s, t, h, ln, q) {
        UserTo(s, t, h, ln, q);
      }
    }
  }

  lemma SystemAt(s: State, h: NodeId, ln: seq<nat>, q: seq<NodeId>)
    requires Shape(s) && Inv(Proj(s, System)) && TokenAt(s, System, h, ln, q)
    ensures Orderly(s, System, h, ln, q) && (!Locked(s, h, System) ==> q == [])
  {
    hide AtMostOne, Place, Num;
    var k := Proj(s, System);
    NumIsRow(s, System);
    assert FlagsOk(k.slots[h], k.up[h]);
    OwnerPlace(s, System, h);
    PlaceOkOf(s, System);
    NoDupLength(q, s.n, h);
  }

  lemma SystemTo(s: State, h: NodeId, ln: seq<nat>, q: seq<NodeId>)
    requires Shape(s) && Inv(Proj(s, System)) && TokenTo(s, System, h, ln, q)
    ensures Orderly(s, System, h, ln, q) && Num(s, h, h, System) == ln[h] + 1
  {
    hide AtMostOne, Place, Num;
    var k := Proj(s, System);
    NumIsRow(s, System);
    var p :| p in Gives(s, System) && p.dst == h && p.msg.data.ln == ln && p.msg.data.queue == q;
    assert p in k.net;
    Welcome(k, p);
    PlaceOkOf(s, System);
    NoDupLength(q, s.n, h);
  }

  lemma FitOrderly(s: State, t: TokenId, h: NodeId, ln: seq<nat>, q: seq<NodeId>)
    requires Shape(s) && WellFormed(Proj(s, t)) && Fit(Nums(Proj(s, t)), Waits(Proj(s, t)), h, ln, q)
    ensures Orderly(s, t, h, ln, q)
  {
    hide Num, Nums;
    forall i: nat | i < s.n
      ensures Nums(Proj(s, t))[i] == Num(s, i, i, t)
    {
      NumOfNums(s, t, i, i);
    }
    NoDupLength(q, s.n, h);
  }

  lemma UserAt(s: State, t: TokenId, h: NodeId, ln: seq<nat>, q: seq<NodeId>)
    requires Shape(s) && WInv(Proj(s, t)) && TokenAt(s, t, h, ln, q)
    ensures Orderly(s, t, h, ln, q) && (!Locked(s, h, t) ==> q == [])
  {
    hide WInv, AtMostOne, Fit, Orderly;
    var k := Proj(s, t);
    ProjShape(s, t);
    assert Holds(k.slots[h]);
    HeldFits(k, h);
    FitOrderly(s, t, h, ln, q);
    if !Locked(s, h, t) {
      IdleFits(k, h);
    }
  }

  lemma UserTo(s: State, t: TokenId, h: NodeId, ln: seq<nat>, q: seq<NodeId>)
    requires Shape(s) && WInv(Proj(s, t)) && TokenTo(s, t, h, ln, q)
    ensures Orderly(s, t, h, ln, q) && Num(s, h, h, t) == ln[h] + 1
  {
    hide AtMostOne, Fit, Orderly, Num;
    var k := Proj(s, t);
    ProjShape(s, t);
    var p :| p in Gives(s, t) && p.dst == h && p.msg.data.ln == ln && p.msg.data.queue == q;
    assert p in k.net;
    assert FlightOk(k, p);
    NumOfNums(s, t, h, h);
    FitOrderly(s, t, h, ln, q);
    OrderlyLength(s, t, h, ln, q);
  }

  lemma OrderlyLength(s: State, t: TokenId, h: NodeId, ln: seq<nat>, q: seq<NodeId>)
    requires Shape(s) && Orderly(s, t, h, ln, q)
    ensures |ln| == s.n && h < s.n
  {
  }

  /** So wherever the token is, the test rn == ln + 1 of release and packetRequestToken says the same as rn > ln. */
  lemma WantsIsAhead(informed: bool, ss: seq<State>, acts: seq<Act>, k: nat, t: TokenId, i: NodeId, x: NodeId)
    requires Run(informed, ss, acts) && k < |ss| && Shape(ss[k]) && Bounded(ss[k])
    requires i < ss[k].n && x < ss[k].n && Holds(View(ss[k].nodes[i], t))
    ensures var p := ss[k].nodes[i].priv[t]; Wants(p, x) <==> p.rn[x] > p.ln[x]
  {
    hide Run;
    var s := ss[k];
    var p := s.nodes[i].priv[t];
    NumbersAlways(informed, ss, acts, k, t);
    OrderlyAlways(informed, ss, acts, k, t, i, p.ln, p.queue);
    assert Num(s, i, x, t) == p.rn[x];
    assert Num(s, x, x, t) < U32_MAX;
  }

  /** Whatever arrives is accepted: the branches of packetGiveToken that discard a token are never taken. */
  lemma NoTokenDiscarded(informed: bool, ss: seq<State>, acts: seq<Act>, k: nat, p: Packet)
    requires Run(informed, ss, acts) && k < |ss| && p in ss[k].net && p.msg.Give? && p.dst < |ss[k].nodes|
    ensures var v := ss[k].nodes[p.dst];
      && v.started && p.msg.t in v.priv && !v.priv[p.msg.t].owned && p.msg.t in v.pendingRequests
      && (p.msg.t.Monitor? ==> p.msg.t in v.pub)
  {
    hide Run, Safe, SystemInv, WInv, Inv;
    RunSafe(informed, ss, acts, k);
    SafeBarrier(ss[k]);
    Receiving(ss[k], p);
    if p.msg.t == System {
      RunInv(informed, ss, acts, k, System);
      AcceptedThere(ss[k], p);
    } else {
      RunW(informed, ss, acts, k, p.msg.t);
      WelcomeThere(ss[k], p);
    }
  }

  lemma WelcomeThere(s: State, p: Packet)
    requires Shape(s) && p in s.net && p.msg.Give? && p.msg.t.Monitor? && WInv(Proj(s, p.msg.t))
    ensures var v := s.nodes[p.dst];
      p.msg.t in v.priv && !v.priv[p.msg.t].owned && p.msg.t in v.pendingRequests && p.msg.t in v.pub
  {
    hide WInv, AtMostOne, Fit;
    var k := Proj(s, p.msg.t);
    ProjShape(s, p.msg.t);
    assert p in k.net;
    FlightFits(k, p);
    WParts(k, p.dst);
    WaitsAt(k, p.dst);
  }

  // ---------------------------------------------------------------- lost requests

  /** The request of i that the token at or to h has not served is queued, or on its way to h, or known at h, and then the
      token is in use or awaited there. */
  ghost predicate LookedAfter(s: State, t: TokenId, h: NodeId, q: seq<NodeId>, there: bool, i: NodeId)
    requires Shape(s) && h < s.n && i < s.n
  {
    || i in q
    || RequestTo(s, i, h, Num(s, i, i, t), t)
    || (Num(s, h, i, t) == Num(s, i, i, t) && if there then Locked(s, h, t) else t in s.nodes[h].pendingRequests)
  }

  ghost predicate NoRequestLost(s: State, t: TokenId)
    requires Shape(s)
  {
    && (forall h: nat, ln, q, i: nat :: TokenAt(s, t, h, ln, q) && i < s.n && i < |ln| && i != h && h < s.n && Num(s, i, i, t) == ln[i] + 1 ==>
          LookedAfter(s, t, h, q, true, i))
    && (forall h: nat, ln, q, i: nat :: TokenTo(s, t, h, ln, q) && i < s.n && i < |ln| && i != h && h < s.n && Num(s, i, i, t) == ln[i] + 1 ==>
          LookedAfter(s, t, h, q, false, i))
  }

  /** A node that owns the token and is not inside knows of no unserved request. */
  ghost predicate IdleServed(s: State, t: TokenId) {
    forall h: nat :: h < |s.nodes| ==> AttentiveAt(View(s.nodes[h], t))
  }

  lemma IdleIs(s: State, t: TokenId)
    requires Shape(s)
    ensures IdleServed(s, t) <==> Attentive(Proj(s, t))
  {
    assert forall h: nat :: h < s.n ==> Proj(s, t).slots[h] == View(s.nodes[h], t);
  }

  /** In every state of every run no request is lost if and only if no idle owner knows of an unserved one. */
  lemma LostExactly(informed: bool, ss: seq<State>, acts: seq<Act>, k: nat, t: TokenId)
    requires Run(informed, ss, acts) && k < |ss| && t.Monitor? && Shape(ss[k])
    ensures NoRequestLost(ss[k], t) <==> IdleServed(ss[k], t)
  {
    hide Run, WInv, Mail, NoRequestLost, IdleServed;
    RunW(informed, ss, acts, k, t);
    if IdleServed(ss[k], t) {
      ServedMeansKept(ss[k], t);
    } else {
      UnservedMeansLost(ss[k], t);
    }
  }

  lemma ServedMeansKept(s: State, t: TokenId)
    requires Shape(s) && WInv(Proj(s, t)) && Mail(Proj(s, t)) && IdleServed(s, t)
    ensures NoRequestLost(s, t)
  {
    hide WInv, Mail, IdleServed, LookedAfter, Num;
    forall h: nat, ln, q, i: nat | TokenAt(s, t, h, ln, q) && i < s.n && i < |ln| && i != h && h < s.n && Num(s, i, i, t) == ln[i] + 1
      ensures LookedAfter(s, t, h, q, true, i)
    {
      AfterAt(s, t, h, i);
    }
    forall h: nat, ln, q, i: nat | TokenTo(s, t, h, ln, q) && i < s.n && i < |ln| && i != h && h < s.n && Num(s, i, i, t) == ln[i] + 1
      ensures LookedAfter(s, t, h, q, false, i)
    {
      var p :| p in Gives(s, t) && p.dst == h && p.msg.data.ln == ln && p.msg.data.queue == q;
      AfterTo(s, t, p, i);
    }
  }

  /** A request is on its way to whoever does not know it. */
  lemma KnownOrSent(s: State, t: TokenId, h: NodeId, i: NodeId)
    requires Shape(s) && Mail(Proj(s, t)) && h < s.n && i < s.n && h != i
    ensures Num(s, h, i, t) == Num(s, i, i, t) || RequestTo(s, i, h, Num(s, i, i, t), t)
  {
    var k := Proj(s, t);
    NumOfNums(s, t, i, h);
    if Sent(k, i, h, Nums(k)[i]) {
      var p :| p in k.net && p.msg.Request? && p.src == i && p.dst == h && p.msg.num == Nums(k)[i];
      assert p in s.net;
    }
  }

  lemma AfterAt(s: State, t: TokenId, h: NodeId, i: NodeId)
    requires Shape(s) && WInv(Proj(s, t)) && Mail(Proj(s, t)) && IdleServed(s, t) && i < s.n && i != h && h < s.n
    requires Holds(View(s.nodes[h], t)) && i < |s.nodes[h].priv[t].ln| && Num(s, i, i, t) == s.nodes[h].priv[t].ln[i] as int + 1
    ensures LookedAfter(s, t, h, s.nodes[h].priv[t].queue, true, i)
  {
    hide WInv, Mail;
    KnownOrSent(s, t, h, i);
    assert AttentiveAt(View(s.nodes[h], t));
  }

  lemma AfterTo(s: State, t: TokenId, p: Packet, i: NodeId)
    requires Shape(s) && WInv(Proj(s, t)) && Mail(Proj(s, t)) && p in Gives(s, t) && i < s.n && i != p.dst
    ensures p.dst < s.n && LookedAfter(s, t, p.dst, p.msg.data.queue, false, i)
  {
    hide WInv, Mail, Fit;
    var k := Proj(s, t);
    ProjShape(s, t);
    assert p in k.net;
    KnownOrSent(s, t, p.dst, i);
    FlightFits(k, p);
    WaitsAt(k, p.dst);
  }

  lemma UnservedMeansLost(s: State, t: TokenId)
    requires Shape(s) && WInv(Proj(s, t)) && Mail(Proj(s, t)) && !IdleServed(s, t)
    ensures !NoRequestLost(s, t)
  {
    hide WInv, Mail, Num, LookedAfter;
    var h: nat :| h < |s.nodes| && !AttentiveAt(View(s.nodes[h], t));
    var u := s.nodes[h].priv[t];
    var x: nat :| x < |u.rn| && x < |u.ln| && u.rn[x] > u.ln[x];
    assert TokenAt(s, t, h, u.ln, u.queue);
    Forgotten(s, t, h, x);
  }

  /** An idle owner that knows of an unserved request will do nothing about it. */
  lemma Forgotten(s: State, t: TokenId, h: NodeId, x: NodeId)
    requires Shape(s) && WInv(Proj(s, t)) && Mail(Proj(s, t)) && h < s.n && x < s.n && Owner(View(s.nodes[h], t)) && !Locked(s, h, t)
    requires s.nodes[h].priv[t].rn[x] > s.nodes[h].priv[t].ln[x]
    ensures x != h && Num(s, x, x, t) == s.nodes[h].priv[t].ln[x] as int + 1 && !LookedAfter(s, t, h, s.nodes[h].priv[t].queue, true, x)
  {
    hide WInv;
    var k := Proj(s, t);
    ProjShape(s, t);
    assert k.slots[h] == View(s.nodes[h], t);
    HeldFits(k, h);
    IdleFits(k, h);
    NumOfNums(s, t, x, h);
    assert forall p :: p in s.net && p.msg.Request? && p.msg.t == t ==> p in k.net;
  }

  // ---------------------------------------------------------------- when requests are lost

  /** The step at which a request gets lost: the system token does not list a monitor that this node has declared, nobody
      here waits for it, and a request for it has been heard. */
  ghost predicate MintsCarelessly(s: State, a: Act, t: TokenId)
    requires Shape(s) && Enabled(s, a)
  {
    a.Deliver? && a.p.msg.Give? && a.p.msg.t == System && t !in a.p.msg.data.monitors
    && var v := s.nodes[a.p.dst];
      t in v.priv && !v.priv[t].created && t !in v.pendingGrants && exists x: nat :: x < s.n && v.priv[t].rn[x] > 0
  }

  lemma CarelessIs(s: State, a: Act, t: TokenId)
    requires SystemReady(s) && t.Monitor? && Enabled(s, a) && Possible(Proj(s, t), EventOf(s, a, t))
    ensures Careless(Proj(s, t), EventOf(s, a, t)) <==> MintsCarelessly(s, a, t)
  {
    hide SystemReady, Registered, Shape, Row, Open, Careless, MintsCarelessly, Possible;
    if a.Deliver? && a.p.msg.Give? && a.p.msg.t == System {
      CarelessGive(s, a.p, t);
    } else {
      CarelessNot(s, a, t);
    }
  }

  lemma CarelessNot(s: State, a: Act, t: TokenId)
    requires SystemReady(s) && t.Monitor? && Enabled(s, a) && Possible(Proj(s, t), EventOf(s, a, t))
    requires !(a.Deliver? && a.p.msg.Give? && a.p.msg.t == System)
    ensures !Careless(Proj(s, t), EventOf(s, a, t)) && !MintsCarelessly(s, a, t)
  {
    hide SystemReady, Registered, Shape, Row, Open;
  }

  lemma CarelessGive(s: State, p: Packet, t: TokenId)
    requires SystemReady(s) && t.Monitor? && Enabled(s, Deliver(p)) && p.msg.Give? && p.msg.t == System
    requires Possible(Proj(s, t), EventOf(s, Deliver(p), t))
    ensures Careless(Proj(s, t), EventOf(s, Deliver(p), t)) <==> MintsCarelessly(s, Deliver(p), t)
  {
    hide SystemReady, Registered, Shape, Row, Open;
    ReadyParts(s);
    SystemLists(s, p, t);
    SlotIs(s, t, p.dst);
  }

  lemma ReadyParts(s: State)
    requires SystemReady(s)
    ensures Shape(s) && Coupled(s)
  {
  }

  lemma SlotIs(s: State, t: TokenId, i: NodeId)
    requires Shape(s) && i < s.n
    ensures var u := Proj(s, t).slots[i];
      && u == View(s.nodes[i], t) && |Proj(s, t).slots| == s.n && Proj(s, t).n == s.n && Proj(s, t).t == t
      && |Proj(s, t).up| == s.n && Proj(s, t).up[i] == s.nodes[i].startedCluster
      && (u.priv.Some? <==> t in s.nodes[i].priv) && (Open(u) <==> t in s.nodes[i].priv && !s.nodes[i].priv[t].created)
      && (t in s.nodes[i].priv ==> Row(u, s.n) == s.nodes[i].priv[t].rn)
  {
  }

  lemma StepServes(s: State, a: Act, t: TokenId)
    requires WReady(s, t) && IdleServed(s, t) && Enabled(s, a)
    ensures IdleServed(Step(s, a), t) <==> !MintsCarelessly(s, a, t)
  {
    hide SystemReady, WInv, Mail, Step, Single, After, IdleServed, MintsCarelessly, Careless, Attentive;
    ReadySmall(s, t);
    WSingle(Proj(s, t));
    SingleKept(s, a, t);
    StepShape(s, a);
    StepIs(s, a, t);
    WAfter(Proj(s, t), EventOf(s, a, t), s.clock);
    IdleIs(s, t);
    IdleIs(Step(s, a), t);
    AttentiveAfter(Proj(s, t), EventOf(s, a, t), s.clock);
    CarelessIs(s, a, t);
  }

  ghost predicate CarelessIn(ss: seq<State>, acts: seq<Act>, j: nat, t: TokenId) {
    j < |acts| && j < |ss| && Shape(ss[j]) && Enabled(ss[j], acts[j]) && MintsCarelessly(ss[j], acts[j], t)
  }

  ghost predicate LosesNone(ss: seq<State>, j: nat, t: TokenId) {
    j < |ss| && Shape(ss[j]) && NoRequestLost(ss[j], t)
  }

  /** In any run, up to step k: no request has been lost in any state if and only if no step minted carelessly. */
  lemma {:induction false} LosesNoneExactly(informed: bool, ss: seq<State>, acts: seq<Act>, k: nat, t: TokenId)
    requires Run(informed, ss, acts) && k < |ss| && t.Monitor?
    ensures (forall j: nat :: j <= k ==> LosesNone(ss, j, t)) <==> (forall j: nat :: j < k ==> !CarelessIn(ss, acts, j, t))
  {
    hide Run, WReady, Step, Bounded, Informed, Shape, Enabled, NoRequestLost, IdleServed, MintsCarelessly;
    RunLength(informed, ss, acts);
    RunShape(informed, ss, acts, k);
    LostExactly(informed, ss, acts, k, t);
    if k == 0 {
      RunStart(informed, ss, acts);
      InitServed(ss[0].n, ss[0].bound, t);
    } else {
      var last: nat := k - 1;
      LosesNoneExactly(informed, ss, acts, last, t);
      RunWReady(informed, ss, acts, last, t);
      RunStep(informed, ss, acts, last);
      LostExactly(informed, ss, acts, last, t);
      if IdleServed(ss[last], t) {
        StepServes(ss[last], acts[last], t);
      }
      assert LosesNone(ss, last, t) ==> (LosesNone(ss, last + 1, t) <==> !CarelessIn(ss, acts, last, t));
    }
  }

  lemma InitServed(n: nat, bound: TokenId -> set<Str>, t: TokenId)
    requires n > 0 && t.Monitor?
    ensures IdleServed(Init(n, bound), t)
  {
  }

  lemma RunWReady(informed: bool, ss: seq<State>, acts: seq<Act>, k: nat, t: TokenId)
    requires k < |acts| && Run(informed, ss, acts) && t.Monitor?
    ensures k < |ss| && Shape(ss[k]) && WReady(ss[k], t)
  {
    hide Run, WInv, Mail, Safe, SystemInv, Shape, Bounded, Enabled, Informed, Step;
    RunLength(informed, ss, acts);
    RunW(informed, ss, acts, k, t);
    RunStep(informed, ss, acts, k);
    RunSafe(informed, ss, acts, k);
    SafeReady(ss[k]);
  }

  /** Under H nobody mints carelessly. */
  lemma InformedNeverCareless(ss: seq<State>, acts: seq<Act>, k: nat, t: TokenId)
    requires Run(true, ss, acts) && k < |acts| && t.Monitor?
    ensures !CarelessIn(ss, acts, k, t)
  {
    hide Run, Safe, UserInv, NoRequestLost, IdleServed, WReady, Bounded, Step, Informed, Enabled, Shape;
    RunLength(true, ss, acts);
    RunStep(true, ss, acts, k);
    RunShape(true, ss, acts, k);
    RunShape(true, ss, acts, k + 1);
    RunSound(ss, acts, k);
    RunSound(ss, acts, k + 1);
    IdleUnderH(ss[k], t);
    IdleUnderH(ss[k + 1], t);
    RunWReady(true, ss, acts, k, t);
    StepServes(ss[k], acts[k], t);
  }

  lemma IdleUnderH(s: State, t: TokenId)
    requires Shape(s) && t.Monitor? && UserInv(Proj(s, t), s.bound(t))
    ensures IdleServed(s, t)
  {
    hide AtMostOne, Place;
    var k := Proj(s, t);
    forall h: nat | h < |s.nodes|
      ensures AttentiveAt(View(s.nodes[h], t))
    {
      assert k.slots[h] == View(s.nodes[h], t);
      if Owner(k.slots[h]) {
        OwnerPlace(s, t, h);
        PlaceOkOf(s, t);
        NumIsRow(s, t);
        assert Abs(k).rn[h] == s.nodes[h].priv[t].rn;
      }
    }
  }
}
