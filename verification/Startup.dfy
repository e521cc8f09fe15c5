/** The startup barrier: nobody takes part in the token protocol before every node has started. */
module Startup {
  import opened Basics
  import opened Properties
  import opened Slot
  import opened Node
  import opened World
  import opened Cluster

  ghost predicate AllStarted(s: State) {
    forall i: nat :: i < |s.nodes| ==> s.nodes[i].started
  }

  ghost predicate Greeting(net: set<Packet>, j: NodeId, i: NodeId) {
    exists p :: p in net && p.src == j && p.dst == i && p.msg.Handshake?
  }

  /** The nodes whose handshake node i has received. */
  ghost function Heard(s: State, i: NodeId): set<NodeId>
    requires Shape(s)
  {
    set j | j in Others(s.n, i) && s.nodes[j].started && !Greeting(s.net, j, i)
  }

  /** A node has started exactly when it is connected to all others, and then it has greeted each of them once. */
  ghost predicate Greetings(s: State)
    requires Shape(s)
  {
    (forall i: nat :: i < s.n ==> Greeted(s, i)) && Letters(s)
  }

  ghost predicate Greeted(s: State, i: NodeId)
    requires Shape(s) && i < s.n
  {
    && s.nodes[i].peers <= Others(s.n, i)
    && (s.nodes[i].started <==> s.nodes[i].peers == Others(s.n, i))
    && Heard(s, i) <= s.nodes[i].peers
    && s.nodes[i].handshakes == |Heard(s, i)|
  }

  ghost predicate Letters(s: State)
    requires Shape(s)
  {
    && (forall p :: p in s.net && p.msg.Handshake? ==> s.nodes[p.src].started && p.dst != p.src)
    && (forall p, q :: p in s.net && q in s.net && p.msg.Handshake? && q.msg.Handshake? && p.src == q.src && p.dst == q.dst ==> p == q)
  }

  ghost predicate Locked(s: State, i: NodeId, t: TokenId)
    requires i < |s.nodes|
  {
    t in s.nodes[i].priv && s.nodes[i].priv[t].locked
  }

  /** Whatever takes part in the protocol shows that every node has started. */
  ghost predicate Gate(s: State)
    requires Shape(s)
  {
    && ((exists i: nat :: i < s.n && s.nodes[i].startedCluster) ==> AllStarted(s))
    && ((exists i: nat, t :: i < s.n && Locked(s, i, t)) ==> AllStarted(s))
    && ((exists p :: p in s.net && !p.msg.Handshake?) ==> AllStarted(s))
  }

  ghost predicate Barrier(s: State) {
    Shape(s) && Greetings(s) && Gate(s)
  }

  /** The state after node i has moved to v. */
  function Moved(s: State, i: NodeId, v: Node, used: set<Packet>, outs: set<Out>): State
    requires i < |s.nodes|
  {
    s.(nodes := s.nodes[i := v], net := s.net - used + Stamped(i, s.clock, outs), clock := s.clock + 1)
  }

  predicate SameStart(v: Node, v': Node) {
    v'.started == v.started && v'.startedCluster == v.startedCluster && v'.handshakes == v.handshakes && v'.peers == v.peers
  }

  lemma SentIsOut(i: NodeId, stamp: nat, outs: set<Out>, p: Packet)
    requires p in Stamped(i, stamp, outs)
    ensures Out(p.dst, p.msg) in outs && p.src == i
  {
  }

  /** A step without handshakes leaves the greetings as they are. */
  lemma Calm(s: State, i: NodeId, v: Node, used: set<Packet>, outs: set<Out>)
    requires Shape(s) && Greetings(s) && i < s.n && SameStart(s.nodes[i], v)
    requires Shape(Moved(s, i, v, used, outs))
    requires (forall p :: p in used ==> !p.msg.Handshake?) && (forall o :: o in outs ==> !o.msg.Handshake?)
    ensures Greetings(Moved(s, i, v, used, outs)) && (AllStarted(Moved(s, i, v, used, outs)) <==> AllStarted(s))
  {
    var s' := Moved(s, i, v, used, outs);
    forall p
      ensures p in s'.net && p.msg.Handshake? <==> p in s.net && p.msg.Handshake?
    {
      if p in Stamped(i, s.clock, outs) {
        SentIsOut(i, s.clock, outs, p);
      }
    }
    assert forall x, y :: Greeting(s'.net, x, y) <==> Greeting(s.net, x, y);
    assert forall x: nat :: x < s.n ==> s'.nodes[x].started == s.nodes[x].started;
    forall x: nat | x < s.n
      ensures Greeted(s', x)
    {
      assert Greeted(s, x) && Heard(s', x) == Heard(s, x);
    }
  }

  /** A handler that only acts or locks on evidence that everyone has started. */
  predicate Cautious(v: Node, r: (Node, set<Out>), evidence: bool) {
    && SameStart(v, r.0)
    && (forall o :: o in r.1 ==> !o.msg.Handshake?)
    && (r.1 != {} ==> evidence || v.startedCluster || exists t :: t in v.priv && v.priv[t].locked)
    && (forall t :: t in r.0.priv && r.0.priv[t].locked ==>
          evidence || v.startedCluster || (t in v.priv && v.priv[t].locked))
  }

  lemma CautiousKeeps(s: State, i: NodeId, r: (Node, set<Out>), used: set<Packet>)
    requires Barrier(s) && i < s.n && used <= s.net
    requires forall p :: p in used ==> !p.msg.Handshake?
    requires Cautious(s.nodes[i], r, used != {}) && Shape(Moved(s, i, r.0, used, r.1))
    ensures Barrier(Moved(s, i, r.0, used, r.1))
  {
    hide NodeOk, Carries, Greetings;
    var s' := Moved(s, i, r.0, used, r.1);
    Calm(s, i, r.0, used, r.1);
    if used != {} {
      var p :| p in used;
      assert p in s.net && !p.msg.Handshake?;
    }
    if t :| t in s.nodes[i].priv && s.nodes[i].priv[t].locked {
      assert Locked(s, i, t);
    }
    forall x: nat, t | x < s.n && Locked(s', x, t)
      ensures AllStarted(s)
    {
      assert x != i ==> Locked(s, x, t);
      assert t in s.nodes[i].priv && s.nodes[i].priv[t].locked ==> Locked(s, i, t);
    }
    forall p | p in s'.net && !p.msg.Handshake?
      ensures AllStarted(s)
    {
      if p in Stamped(i, s.clock, r.1) {
        SentIsOut(i, s.clock, r.1, p);
      }
    }
  }

  /** A connection that is not the last one. */
  lemma ConnectPart(s: State, i: NodeId, v: Node)
    requires Shape(s) && Greetings(s) && i < s.n && !s.nodes[i].started && !v.started
    requires s.nodes[i].peers <= v.peers <= Others(s.n, i) && v.peers != Others(s.n, i)
    requires v.handshakes == s.nodes[i].handshakes && Shape(Moved(s, i, v, {}, {}))
    ensures Greetings(Moved(s, i, v, {}, {}))
  {
    var s' := Moved(s, i, v, {}, {});
    assert s'.net == s.net;
    assert forall x: nat :: x < s.n ==> s'.nodes[x].started == s.nodes[x].started;
    forall x: nat | x < s.n
      ensures Greeted(s', x)
    {
      assert Greeted(s, x) && Heard(s', x) == Heard(s, x);
    }
  }

  /** The last connection starts a node, which greets everyone else. */
  lemma ConnectLast(s: State, i: NodeId, v: Node, outs: set<Out>)
    requires Shape(s) && Greetings(s) && i < s.n && !s.nodes[i].started && v.started
    requires v.peers == Others(s.n, i) && s.nodes[i].peers <= v.peers && v.handshakes == s.nodes[i].handshakes
    requires outs == Broadcast(Others(s.n, i), Handshake) && Shape(Moved(s, i, v, {}, outs))
    ensures Greetings(Moved(s, i, v, {}, outs))
  {
    hide NodeOk, Carries, Heard, Greeting;
    var s' := Moved(s, i, v, {}, outs);
    GreetAll(s.n, s.net, i, s.clock);
    forall x: nat | x < s.n
      ensures Greeted(s', x)
    {
      assert Greeted(s, x);
      HeardAfterGreeting(s, i, v, x);
    }
  }

  /** A greeting still in flight does not count as heard. */
  lemma HeardAfterGreeting(s: State, i: NodeId, v: Node, x: NodeId)
    requires Shape(s) && i < s.n && x < s.n && !s.nodes[i].started
    requires Shape(Moved(s, i, v, {}, Broadcast(Others(s.n, i), Handshake)))
    ensures Heard(Moved(s, i, v, {}, Broadcast(Others(s.n, i), Handshake)), x) == Heard(s, x)
  {
    hide NodeOk, Carries;
    var s' := Moved(s, i, v, {}, Broadcast(Others(s.n, i), Handshake));
    GreetAll(s.n, s.net, i, s.clock);
    forall j | j in Others(s.n, x)
      ensures j in Heard(s', x) <==> j in Heard(s, x)
    {
      if j != i {
        assert Greeting(s'.net, j, x) <==> Greeting(s.net, j, x);
      }
    }
  }

  lemma GreetAll(n: nat, net: set<Packet>, i: NodeId, stamp: nat)
    ensures var net' := net - {} + Stamped(i, stamp, Broadcast(Others(n, i), Handshake));
      && net <= net'
      && (forall p :: p in net' ==> p in net || (p.src == i && p.dst in Others(n, i) && p == Packet(i, p.dst, stamp, Handshake)))
      && (forall x: nat :: x < n && x != i ==> Greeting(net', i, x))
  {
    var outs := Broadcast(Others(n, i), Handshake);
    var net' := net - {} + Stamped(i, stamp, outs);
    forall p | p in Stamped(i, stamp, outs)
      ensures p.src == i && p.dst in Others(n, i) && p == Packet(i, p.dst, stamp, Handshake)
    {
      SentIsOut(i, stamp, outs, p);
    }
    forall x: nat | x < n && x != i
      ensures Greeting(net', i, x)
    {
      assert Out(x, Handshake) in outs;
      assert Packet(i, x, stamp, Handshake) in net';
    }
  }

  /** While a node has not started nobody takes part, and a connection changes nothing about that. */
  lemma ConnectGate(s: State, i: NodeId, v: Node, outs: set<Out>)
    requires Barrier(s) && i < s.n && !s.nodes[i].started && Shape(Moved(s, i, v, {}, outs))
    requires v.startedCluster == s.nodes[i].startedCluster && (forall o :: o in outs ==> o.msg.Handshake?)
    requires forall t :: t in v.priv && v.priv[t].locked ==> t in s.nodes[i].priv && s.nodes[i].priv[t].locked
    ensures Gate(Moved(s, i, v, {}, outs))
  {
    hide NodeOk, Carries, Greetings;
    var s' := Moved(s, i, v, {}, outs);
    assert !AllStarted(s);
    forall x: nat | x < s.n
      ensures s'.nodes[x].startedCluster == s.nodes[x].startedCluster
    {
    }
    forall x: nat, t | x < s.n && Locked(s', x, t)
      ensures Locked(s, x, t)
    {
    }
    forall p | p in s'.net
      ensures p.msg.Handshake?
    {
      if p in Stamped(i, s.clock, outs) {
        SentIsOut(i, s.clock, outs, p);
      }
    }
  }

  lemma ConnectKeeps(s: State, i: NodeId, j: NodeId)
    requires Barrier(s) && Enabled(s, Connected(i, j)) && i < s.n
    ensures Barrier(Step(s, Connected(i, j)))
  {
    hide NodeOk, Carries, Heard, Greeting, Gate;
    var v := s.nodes[i];
    var (v', outs) := HandleConnect(v, j);
    StepShape(s, Connected(i, j));
    assert Step(s, Connected(i, j)) == Moved(s, i, v', {}, outs);
    assert j in Others(s.n, i) && Greeted(s, i);
    assert !v.started;
    FullSet(s.n, i, v.peers + {j});
    ConnectGate(s, i, v', outs);
    if v.peers + {j} == Others(s.n, i) {
      ConnectLast(s, i, v', outs);
    } else {
      ConnectPart(s, i, v');
    }
  }

  /** A handshake arrives. After the last one everybody is known to have started. */
  lemma HandshakeKeeps(s: State, p: Packet)
    requires Barrier(s) && p in s.net && p.msg.Handshake? && p.src in s.nodes[p.dst].peers
    ensures Barrier(Step(s, Deliver(p)))
    ensures HandshakeIn(s.nodes[p.dst]).0.startedCluster && !s.nodes[p.dst].startedCluster ==>
              AllStarted(s) && s.nodes[p.dst].peers == Others(s.n, p.dst)
  {
    var (v, outs) := HandshakeIn(s.nodes[p.dst]);
    HandshakeInStart(s.nodes[p.dst]);
    StepShape(s, Deliver(p));
    HandshakeMoved(s, p, v, outs);
  }

  lemma HandshakeMoved(s: State, p: Packet, v: Node, outs: set<Out>)
    requires Barrier(s) && p in s.net && p.msg.Handshake? && p.src in s.nodes[p.dst].peers
    requires Shape(Moved(s, p.dst, v, {p}, outs)) && (forall o :: o in outs ==> !o.msg.Handshake?)
    requires var u := s.nodes[p.dst];
      && v.started == u.started && v.peers == u.peers && v.handshakes == u.handshakes + 1
      && (v.startedCluster <==> u.startedCluster || v.handshakes >= s.n - 1)
      && (!(v.startedCluster && !u.startedCluster) ==> outs == {} && v.priv == u.priv)
    ensures Barrier(Moved(s, p.dst, v, {p}, outs))
    ensures v.startedCluster && !s.nodes[p.dst].startedCluster ==> AllStarted(s) && v.peers == Others(s.n, p.dst)
  {
    hide NodeOk, Carries, Greeting, Gate, Heard, Greetings, AllStarted;
    var s' := Moved(s, p.dst, v, {p}, outs);
    HandshakeHeard(s, p, v, outs);
    if v.startedCluster && !s.nodes[p.dst].startedCluster {
      EveryoneHeard(s', p.dst);
      SameStarted(s, s', p.dst);
    }
    HandshakeGate(s, p, v, outs);
  }

  lemma SameStarted(s: State, s': State, i: NodeId)
    requires i < |s.nodes| == |s'.nodes| && s'.nodes == s.nodes[i := s'.nodes[i]] && s'.nodes[i].started == s.nodes[i].started
    ensures AllStarted(s) <==> AllStarted(s')
  {
    assert forall x: nat :: x < |s.nodes| ==> s.nodes[x].started == s'.nodes[x].started;
  }

  /** n - 1 handshakes come from n - 1 nodes that have started, over connections that are all there. */
  lemma EveryoneHeard(s: State, i: NodeId)
    requires Shape(s) && Greetings(s) && i < s.n && s.nodes[i].handshakes >= s.n - 1
    ensures AllStarted(s) && s.nodes[i].peers == Others(s.n, i)
  {
    hide NodeOk, Carries;
    assert Greeted(s, i);
    FullSet(s.n, i, Heard(s, i));
    forall x: nat | x < s.n
      ensures s.nodes[x].started
    {
      assert x in Heard(s, i) || x == i;
    }
  }

  lemma HandshakeInStart(v: Node)
    requires NodeOk(v)
    ensures var (v', outs) := HandshakeIn(v);
      && v'.started == v.started && v'.peers == v.peers && v'.handshakes == v.handshakes + 1
      && (v'.startedCluster <==> v.startedCluster || v.handshakes + 1 >= v.n - 1)
      && (forall o :: o in outs ==> !o.msg.Handshake?)
      && (!(v'.startedCluster && !v.startedCluster) ==> outs == {} && v'.priv == v.priv)
  {
  }

  lemma HandshakeGate(s: State, p: Packet, v: Node, outs: set<Out>)
    requires Barrier(s) && p in s.net && p.msg.Handshake? && Shape(Moved(s, p.dst, v, {p}, outs))
    requires v.started == s.nodes[p.dst].started
    requires v.startedCluster && !s.nodes[p.dst].startedCluster ==> AllStarted(s)
    requires !(v.startedCluster && !s.nodes[p.dst].startedCluster) ==> outs == {} && v.priv == s.nodes[p.dst].priv && v.startedCluster == s.nodes[p.dst].startedCluster
    ensures Gate(Moved(s, p.dst, v, {p}, outs))
  {
    hide NodeOk, Carries, Greetings;
    var s' := Moved(s, p.dst, v, {p}, outs);
    assert forall x: nat :: x < s.n ==> s'.nodes[x].started == s.nodes[x].started;
    if !AllStarted(s) {
      assert outs == {};
      assert Stamped(p.dst, s.clock, outs) == {};
      assert forall x: nat :: x < s.n ==> s'.nodes[x].startedCluster == s.nodes[x].startedCluster;
      assert forall x: nat, t :: x < s.n && Locked(s', x, t) ==> Locked(s, x, t);
    }
  }

  lemma HandshakeHeard(s: State, p: Packet, v: Node, outs: set<Out>)
    requires Shape(s) && Greetings(s) && p in s.net && p.msg.Handshake? && p.src in s.nodes[p.dst].peers
    requires Shape(Moved(s, p.dst, v, {p}, outs)) && (forall o :: o in outs ==> !o.msg.Handshake?)
    requires v.started == s.nodes[p.dst].started && v.peers == s.nodes[p.dst].peers && v.handshakes == s.nodes[p.dst].handshakes + 1
    ensures var s' := Moved(s, p.dst, v, {p}, outs);
      Greetings(s') && Heard(s', p.dst) == Heard(s, p.dst) + {p.src}
  {
    hide NodeOk, Carries, Heard, Greeting, Letters, Greeted;
    var s' := Moved(s, p.dst, v, {p}, outs);
    LettersLeft(s, p, v, outs);
    forall x: nat | x < s.n
      ensures Greeted(s', x) && (x == p.dst ==> Heard(s', x) == Heard(s, x) + {p.src})
    {
      GreetedLeft(s, p, v, outs, x);
    }
  }

  lemma LettersLeft(s: State, p: Packet, v: Node, outs: set<Out>)
    requires Shape(s) && Letters(s) && p in s.net && p.msg.Handshake? && v.started == s.nodes[p.dst].started
    requires Shape(Moved(s, p.dst, v, {p}, outs)) && (forall o :: o in outs ==> !o.msg.Handshake?)
    ensures Letters(Moved(s, p.dst, v, {p}, outs))
  {
    hide NodeOk, Carries;
    HandshakesLeft(s.net, p, s.clock, outs);
    assert forall x: nat :: x < s.n ==> Moved(s, p.dst, v, {p}, outs).nodes[x].started == s.nodes[x].started;
  }

  lemma GreetedLeft(s: State, p: Packet, v: Node, outs: set<Out>, x: NodeId)
    requires Shape(s) && Greetings(s) && p in s.net && p.msg.Handshake? && p.src in s.nodes[p.dst].peers && x < s.n
    requires Shape(Moved(s, p.dst, v, {p}, outs)) && (forall o :: o in outs ==> !o.msg.Handshake?)
    requires v.started == s.nodes[p.dst].started && v.peers == s.nodes[p.dst].peers && v.handshakes == s.nodes[p.dst].handshakes + 1
    ensures Greeted(Moved(s, p.dst, v, {p}, outs), x)
    ensures x == p.dst ==> Heard(Moved(s, p.dst, v, {p}, outs), x) == Heard(s, x) + {p.src}
  {
    hide NodeOk, Carries, Heard, Greeting, Others, Letters;
    assert Greeted(s, x);
    HeardAfterHandshake(s, p, v, outs, x);
  }

  lemma HandshakesLeft(net: set<Packet>, p: Packet, stamp: nat, outs: set<Out>)
    requires forall o :: o in outs ==> !o.msg.Handshake?
    ensures forall q :: q in net - {p} + Stamped(p.dst, stamp, outs) && q.msg.Handshake? <==> q in net && q.msg.Handshake? && q != p
  {
    forall q | q in Stamped(p.dst, stamp, outs)
      ensures !q.msg.Handshake?
    {
      SentIsOut(p.dst, stamp, outs, q);
    }
  }

  /** One greeting fewer under way, and there was only one. */
  lemma GreetingLeft(s: State, p: Packet, outs: set<Out>, j: NodeId, x: NodeId)
    requires Shape(s) && Greetings(s) && p in s.net && p.msg.Handshake?
    requires forall o :: o in outs ==> !o.msg.Handshake?
    ensures Greeting(s.net - {p} + Stamped(p.dst, s.clock, outs), j, x) <==> Greeting(s.net, j, x) && !(j == p.src && x == p.dst)
    ensures Greeting(s.net, p.src, p.dst)
  {
    hide NodeOk, Carries, Heard;
    HandshakesLeft(s.net, p, s.clock, outs);
  }

  lemma HeardAfterHandshake(s: State, p: Packet, v: Node, outs: set<Out>, x: NodeId)
    requires Shape(s) && Greetings(s) && p in s.net && p.msg.Handshake? && x < s.n
    requires Shape(Moved(s, p.dst, v, {p}, outs)) && (forall o :: o in outs ==> !o.msg.Handshake?)
    requires v.started == s.nodes[p.dst].started
    ensures Heard(Moved(s, p.dst, v, {p}, outs), x) == if x == p.dst then Heard(s, x) + {p.src} else Heard(s, x)
    ensures x == p.dst ==> p.src !in Heard(s, x)
  {
    hide NodeOk, Carries, Greeting;
    var s' := Moved(s, p.dst, v, {p}, outs);
    assert s.nodes[p.src].started && p.src != p.dst && p.src in Others(s.n, p.dst);
    assert forall j: nat :: j < s.n ==> s'.nodes[j].started == s.nodes[j].started;
    forall j | j in Others(s.n, x)
      ensures j in Heard(s', x) <==> j in Heard(s, x) || (x == p.dst && j == p.src)
      ensures x == p.dst && j == p.src ==> j !in Heard(s, x)
    {
      GreetingLeft(s, p, outs, j, x);
    }
  }

  // ---------------------------------------------------------------- the other handlers

  /** Replacing one slot by one that is not locked. */
  lemma PutCalm(v: Node, t: TokenId, s: Slot)
    requires s.priv.Some? && s.priv.value.locked ==> t in v.priv && v.priv[t].locked
    ensures SameStart(v, Put(v, t, s)) && forall x :: x in Put(v, t, s).priv && Put(v, t, s).priv[x].locked ==> x in v.priv && v.priv[x].locked
  {
  }

  /** No entry is newly locked, and the node's start-up is where it was. */
  predicate Calmed(v: Node, w: Node) {
    SameStart(v, w) && forall x :: x in w.priv && w.priv[x].locked ==> x in v.priv && v.priv[x].locked
  }

  lemma CalmIsCautious(v: Node, w: Node, outs: set<Out>)
    requires Calmed(v, w) && (forall o :: o in outs ==> !o.msg.Handshake?) && (outs != {} ==> v.startedCluster)
    ensures forall mons :: Cautious(v, (w.(monitors := mons), outs), false)
    ensures Cautious(v, (w, outs), false)
  {
  }

  lemma NewCautious(v: Node, t: TokenId, props: Props)
    requires NodeOk(v)
    ensures Cautious(v, HandleNew(v, t, props), false)
  {
    hide EntryFlags, SlotOk, AskFor, Put, Calmed, Cautious, SameStart, NodeOk, View, Declare;
    var (created, owned) := EntryFlags(v, t);
    var s := Declare(C(v), View(v, t), props, created, owned);
    var v1 := Put(v, t, s);
    AskOk(v);
    AskCautious(v);
    DeclareCalm(C(v), View(v, t), props, created, owned);
    ViewLocked(v, t);
    ViewLocked(v, System);
    PutCalm(v, t, s);
    CalmedIs(v, v1);
    CalmIsCautious(v, v1, {});
    var (s', outs) := AskFor(C(v), System, View(v, System));
    PutCalmAfter(v, v1, s');
    CalmIsCautious(v, Put(v1, System, s'), outs);
  }

  lemma DeclareCalm(c: Ctx, s: Slot, props: Props, created: bool, owned: bool)
    ensures var s' := Declare(c, s, props, created, owned);
      s'.priv.Some? && s'.priv.value.locked ==> s.priv.Some? && s.priv.value.locked
  {
  }

  lemma ViewLocked(v: Node, t: TokenId)
    ensures View(v, t).priv.Some? && View(v, t).priv.value.locked ==> t in v.priv && v.priv[t].locked
    ensures View(v, t).priv.Some? <==> t in v.priv
    ensures View(v, t).pub.Some? <==> t in v.pub
  {
  }

  lemma CalmedIs(v: Node, w: Node)
    requires SameStart(v, w) && forall x :: x in w.priv && w.priv[x].locked ==> x in v.priv && v.priv[x].locked
    ensures Calmed(v, w)
  {
  }

  lemma PutCalmAfter(v: Node, v1: Node, s: Slot)
    requires Calmed(v, v1) && (s.priv.Some? && s.priv.value.locked ==> System in v.priv && v.priv[System].locked)
    ensures Calmed(v, Put(v1, System, s))
  {
  }

  lemma AskCautious(v: Node)
    requires NodeOk(v)
    ensures var s := View(v, System);
      var (s', outs) := AskFor(C(v), System, s);
      && s'.priv.Some? == s.priv.Some? && (s.priv.Some? ==> s'.priv.value.locked == s.priv.value.locked)
      && (forall o :: o in outs ==> !o.msg.Handshake?) && (outs != {} ==> v.startedCluster)
  {
  }

  lemma LockCautious(v: Node, t: TokenId)
    requires NodeOk(v)
    ensures Cautious(v, LockRequested(v, t), false)
  {
  }

  lemma UnlockCautious(v: Node, t: TokenId)
    requires NodeOk(v)
    ensures Cautious(v, UnlockRequested(v, t), false)
  {
  }

  lemma RequestCautious(v: Node, t: TokenId, from: NodeId, num: U32)
    requires NodeOk(v) && from < v.n
    ensures Cautious(v, RequestTokenIn(v, t, from, num), true)
  {
  }

  lemma AdoptAllCautious(v: Node, mons: set<TokenId>)
    requires NodeOk(v)
    ensures Cautious(v, AdoptAll(v, mons), true)
  {
  }

  lemma GiveCautious(v: Node, t: TokenId, d: TokenData)
    requires NodeOk(v) && Carries(v.n, Give(t, d))
    ensures Cautious(v, GiveTokenIn(v, t, d), true)
  {
    hide AdoptAll, ReleaseAndPass;
    if t == System && v.started && Accepts(View(v, System)) {
      AdoptAllCautious(v, d.monitors);
      PassCautious(C(v), Taken(C(v), View(v, System), d), d.monitors + Unsettled(v));
    }
  }

  lemma PassCautious(c: Ctx, s: Slot, mons: set<TokenId>)
    requires SlotOk(c, s) && s.priv.Some?
    ensures forall o :: o in ReleaseAndPass(c, System, s, mons).1 ==> !o.msg.Handshake?
  {
  }

  /** The barrier holds throughout. */
  lemma BarrierKept(s: State, a: Act)
    requires Barrier(s) && Enabled(s, a)
    ensures Barrier(Step(s, a))
  {
    hide Gate, Greetings;
    var i := Actor(a);
    var v := s.nodes[i];
    StepShape(s, a);
    match a
    case Connected(_, j) => ConnectKeeps(s, i, j);
    case NewMonitor(_, t, props) => { NewCautious(v, t, props); CautiousKeeps(s, i, React(s, a), Used(a)); }
    case LockAt(_, t) => { LockCautious(v, t); CautiousKeeps(s, i, React(s, a), Used(a)); }
    case UnlockAt(_, t) => { UnlockCautious(v, t); CautiousKeeps(s, i, React(s, a), Used(a)); }
    case WriteAt(_, _, _) => CautiousKeeps(s, i, React(s, a), Used(a));
    case Deliver(p) => {
      match p.msg
      case Handshake => HandshakeKeeps(s, p);
      case Request(t, num) => { RequestCautious(v, t, p.src, num); CautiousKeeps(s, i, React(s, a), Used(a)); }
      case Give(t, d) => { GiveCautious(v, t, d); CautiousKeeps(s, i, React(s, a), Used(a)); }
    }
  }

  lemma InitBarrier(n: nat, bound: TokenId -> set<Str>)
    requires n > 0
    ensures Barrier(Init(n, bound))
  {
    hide Heard, Greeting, NodeOk;
    var s := Init(n, bound);
    InitShape(n, bound);
    forall i: nat | i < n
      ensures Heard(s, i) == {} && ({} == Others(n, i) <==> n == 1)
    {
      InitHeard(n, bound, i);
    }
  }

  lemma InitHeard(n: nat, bound: TokenId -> set<Str>, i: NodeId)
    requires i < n && Shape(Init(n, bound))
    ensures Heard(Init(n, bound), i) == {} && ({} == Others(n, i) <==> n == 1)
  {
    OthersSize(n, i);
    if n == 1 {
      assert Others(n, i) == {};
    }
  }
}
