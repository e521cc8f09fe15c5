/** The token record of lib/token.cpp as the object it is: two arrays, a queue and flags, updated in place. */
module TokenRecord {
  import opened Basics
  import opened Properties
  import opened Token
  import opened TokenMap

  /** TokenPrivateData, with the monitor set that SystemToken adds. */
  class TokenPrivateData {
    const nodes: nat
    const ln: array<U32>
    const rn: array<U32>
    var queue: seq<NodeId>
    var created: bool
    var owned: bool
    var locked: bool
    var monitors: set<TokenId>

    ghost predicate Sized()
      reads this
    {
      ln.Length == nodes && rn.Length == nodes && ln != rn
    }

    /** The queue names nodes of the cluster. */
    ghost predicate Valid()
      reads this
    {
      Sized() && forall x: nat :: x in queue ==> x < nodes
    }

    ghost function Value(): Priv
      reads this, ln, rn
    {
      Priv(ln[..], rn[..], queue, created, owned, locked)
    }

    constructor (nodes: nat, created: bool, owned: bool)
      ensures Valid() && fresh(ln) && fresh(rn) && this.nodes == nodes && monitors == {} && this.created == created
      ensures Value() == NewPriv(nodes, created, owned)
    {
      this.nodes := nodes;
      ln := new U32[nodes](_ => 0);
      rn := new U32[nodes](_ => 0);
      queue, monitors := [], {};
      this.created, this.owned, locked := created, owned, false;
      new;
      assert ln[..] == seq(nodes, _ => 0);
      assert rn[..] == seq(nodes, _ => 0);
    }

    method IncrementRequestNumber(node: NodeId) returns (num: U32)
      requires Valid() && node < nodes
      modifies rn
      ensures Valid() && num == rn[node]
      ensures Value() == Token.IncrementRequestNumber(old(Value()), node)
    {
      rn[node] := Succ32(rn[node]);
      num := rn[node];
    }

    method UpdateRequestNumber(node: NodeId, request: U32)
      requires Valid() && node < nodes
      modifies rn
      ensures Valid()
      ensures Value() == Token.UpdateRequestNumber(old(Value()), node, request)
    {
      rn[node] := Max32(request, rn[node]);
    }

    method Release(node: NodeId) returns (waiting: bool)
      requires Valid() && node < nodes
      modifies this`queue, ln
      ensures Valid()
      ensures Value() == Token.Release(old(Value()), node)
      ensures waiting <==> queue != []
    {
      ln[node] := rn[node];
      ghost var served := Value();
      assert served == old(Value()).(ln := old(ln[..])[node := old(rn[..])[node]]);
      var newQueue, known := DrainQueue();
      newQueue := AddLatecomers(served, newQueue, known);
      queue := newQueue;
      waiting := queue != [];
    }

    /** The first loop of release: empty the queue, noting who was in it. */
    method DrainQueue() returns (newQueue: seq<NodeId>, known: set<NodeId>)
      modifies this`queue
      ensures queue == [] && newQueue == old(queue) && known == set x | x in newQueue
    {
      newQueue, known := [], {};
      while queue != []
        invariant old(queue) == newQueue + queue
        invariant known == set x | x in newQueue
        decreases |queue|
      {
        var x := queue[0];
        queue := queue[1..];
        known := known + {x};
        newQueue := newQueue + [x];
      }
    }

    /** Its second loop: everyone else who is known to want the token goes to the back. */
    method AddLatecomers(ghost served: Priv, q: seq<NodeId>, known: set<NodeId>) returns (newQueue: seq<NodeId>)
      requires ln.Length == nodes && rn.Length == nodes
      requires served.ln == ln[..] && served.rn == rn[..] && served.queue == q && known == set x | x in q
      ensures newQueue == q + Latecomers(served, nodes)
    {
      newQueue := q;
      for i := 0 to nodes
        invariant newQueue == q + Latecomers(served, i)
      {
        assert served.ln[i] == ln[i] && served.rn[i] == rn[i];
        if rn[i] == Succ32(ln[i]) && i !in known {
          newQueue := newQueue + [i];
        }
      }
    }

    /** saveProperties: LN and Q, and for the system token the monitor set, in any order. */
    method SaveProperties(m: Props, system: bool) returns (r: Props, ghost names: seq<Str>)
      requires Valid() && System !in monitors
      ensures system ==> Enumerates(names, monitors)
      ensures r == if system then SaveMonitors(SaveToken(m, Value()), names) else SaveToken(m, Value())
    {
      var lns: seq<U32> := seq(nodes, _ => 0);
      for i := 0 to nodes
        invariant |lns| == nodes && lns[..i] == ln[..i]
      {
        lns := lns[i := ln[i]];
      }
      var queueCopy, saved: seq<U32> := queue, [];
      while queueCopy != []
        invariant |saved| + |queueCopy| == |queue| && queueCopy == queue[|saved|..]
        invariant saved == Narrow(queue[..|saved|])
        decreases |queueCopy|
      {
        ghost var k := |saved|;
        assert queue[..k + 1] == queue[..k] + [queueCopy[0]];
        saved := saved + [AsU32(queueCopy[0])];
        queueCopy := queueCopy[1..];
      }
      assert queue[..|queue|] == queue && ln[..nodes] == ln[..] && lns[..nodes] == lns;
      r := Emplace(Emplace(m, LN_NAME, U32S_TAG, Dwords(lns)), QUEUE_NAME, U32S_TAG, Dwords(saved));
      names := [];
      if system {
        var listed := ListMonitors();
        names := listed;
        r := Emplace(r, MONITORS_NAME, STRINGS_TAG, Strings(listed));
      }
    }

    /** The loop over m_monitors in SystemToken::saveProperties. */
    method ListMonitors() returns (names: seq<Str>)
      requires System !in monitors
      ensures Enumerates(names, monitors)
    {
      names := [];
      var todo := monitors;
      while todo != {}
        invariant todo <= monitors && NoDup(names)
        invariant forall t :: t in monitors - todo <==> t.Monitor? && t.name in names
        decreases |todo|
      {
        var t :| t in todo;
        todo := todo - {t};
        names := names + [t.name];
      }
    }

    /** loadProperties: Q and LN are replaced when both are there and LN has the right length. */
    method LoadProperties(m: Props, system: bool)
      requires Sized() && Typed(m)
      requires system && MONITORS_NAME in m ==> m[MONITORS_NAME].value.Strings?
      modifies this`queue, this`monitors, ln
      ensures Sized()
      ensures Value() == LoadToken(old(Value()), nodes, m)
      ensures monitors == if system then LoadMonitors(old(monitors), m) else old(monitors)
    {
      if HasToken(m) && |m[LN_NAME].value.ds| == nodes {
        var lns, newQueue: seq<NodeId> := m[LN_NAME].value.ds, [];
        var saved := m[QUEUE_NAME].value.ds;
        for i := 0 to |saved|
          invariant newQueue == saved[..i]
        {
          newQueue := newQueue + [saved[i]];
        }
        assert saved[..|saved|] == saved;
        queue := newQueue;
        for i := 0 to nodes
          invariant ln[..i] == lns[..i]
          invariant rn[..] == old(rn[..]) && queue == newQueue && monitors == old(monitors)
        {
          ln[i] := lns[i];
        }
        assert ln[..] == ln[..nodes] == lns[..nodes] == lns;
      }
      ghost var loaded := Value();
      assert loaded == LoadToken(old(Value()), nodes, m);
      if system && MONITORS_NAME in m {
        var names := m[MONITORS_NAME].value.ss;
        monitors := {};
        for i := 0 to |names|
          invariant monitors == set x | x in names[..i] :: Monitor(x)
          invariant Value() == loaded
        {
          assert names[..i + 1] == names[..i] + [names[i]];
          monitors := monitors + {Monitor(names[i])};
        }
        assert names[..|names|] == names;
      }
    }

    /** queue().front(), then queue().pop() */
    method Pop() returns (x: NodeId)
      requires Valid() && queue != []
      modifies this`queue
      ensures Valid() && x == old(queue)[0] && Value() == old(Value()).(queue := old(queue)[1..])
    {
      x := queue[0];
      assert forall y :: y in queue[1..] ==> y in queue;
      queue := queue[1..];
    }

    method AddMonitor(m: TokenId)
      modifies this`monitors
      ensures monitors == old(monitors) + {m} && Value() == old(Value()) && (old(Valid()) ==> Valid())
    {
      monitors := monitors + {m};
    }
  }
}
