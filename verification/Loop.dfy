/** ClusterLoop as the object it is: token records, sets and counters updated in place by one handler at a time, and
    packets handed to the TCP layer. Each handler is proved equal to the handler of the same event in module Node. */
module Loop {
  import opened Basics
  import opened Properties
  import opened Token
  import opened Slot
  import S = Slot
  import opened Node
  import N = Node
  import opened TokenMap
  import opened TokenRecord
  import opened Handlers
  import opened NodeEvents

  // ---------------------------------------------------------------- token records

  type Records = map<TokenId, TokenPrivateData>

  /** No two records share anything. */
  ghost predicate Apart(o: TokenPrivateData, o': TokenPrivateData) {
    o != o' && o.ln != o'.ln && o.rn != o'.rn && o.ln != o'.rn && o.rn != o'.ln
  }

  /** repr holds the records and their arrays. */
  ghost predicate Covers(m: Records, repr: set<object>) {
    forall t :: t in m ==> m[t] in repr && m[t].ln in repr && m[t].rn in repr
  }

  ghost predicate RecordsOk(m: Records, n: nat, repr: set<object>)
    reads repr
  {
    && Covers(m, repr)
    && (forall t :: t in m ==> m[t].Valid() && m[t].nodes == n && System !in m[t].monitors)
    && (forall t, t' :: t in m && t' in m && t != t' ==> Apart(m[t], m[t']))
    && (System in m ==> m[System].created)
  }

  ghost function Privs(m: Records, repr: set<object>): map<TokenId, Priv>
    requires Covers(m, repr)
    reads repr
  {
    map t | t in m :: m[t].Value()
  }

  ghost function MonitorsAt(m: Records, repr: set<object>): set<TokenId>
    requires Covers(m, repr)
    reads repr
  {
    if System in m then m[System].monitors else {}
  }

  /** The map that is sent carries the token, and the receiver reads the same token back. */
  lemma CargoPacked(v: Node, t: TokenId, mons: set<TokenId>, m0: Props, m: Props, names: seq<Str>)
    requires t in v.priv && (forall x: nat :: x in v.priv[t].queue ==> x <= U32_MAX)
    requires t == System ==> Enumerates(names, mons) && mons == v.monitors && t !in v.pub
    requires t in v.pub ==> Plain(v.pub[t])
    requires m0 == SaveToken(map[], v.priv[t])
    requires m == if t == System then SaveMonitors(m0, names) else if t in v.pub then SaveVars(m0, v.pub[t]) else m0
    ensures Meaning(Wire.GiveToken(t, m)) == Give(t, Cargo(v, t))
  {
    var d := Cargo(v, t);
    assert Packable(t, d, names);
    PackRoundTrip(t, d, names);
    if t != System && t !in v.pub {
      assert SaveVars(m, map[]) == m;
    }
    assert m == Pack(t, d, names);
  }

  lemma BroadcastNone(peers: set<NodeId>, m: Msg)
    ensures S.Broadcast(peers - peers, m) == {}
  {
  }

  lemma BroadcastMore(peers: set<NodeId>, todo: set<NodeId>, x: NodeId, m: Msg)
    requires x in todo && todo <= peers
    ensures S.Broadcast(peers - todo, m) !! {Out(x, m)}
    ensures S.Broadcast(peers - (todo - {x}), m) == S.Broadcast(peers - todo, m) + {Out(x, m)}
  {
  }

  /** loadProperties on a record */
  method LoadInto(id: TokenId, o: TokenPrivateData, m: Props, n: nat)
    requires o.Valid() && o.nodes == n > 0 && Castable(id, m) && InRange(n, TokenIn(id, m, n, o.monitors)) && System !in o.monitors
    modifies o`queue, o`monitors, o.ln
    ensures o.Valid() && System !in o.monitors
    ensures o.Value() == Load(old(o.Value()), n, TokenIn(id, m, n, old(o.monitors)))
    ensures o.monitors == if id == System then TokenIn(id, m, n, old(o.monitors)).monitors else old(o.monitors)
  {
    hide LoadToken, Load, TokenPrivateData.Value, TokenIn, Typed, HasToken;
    LoadUnpacked(id, o.Value(), n, o.monitors, m);
    MonitorsIn(id, m, n, o.monitors);
    QueueOf(o);
    ghost var q := LoadToken(o.Value(), n, m).queue;
    o.LoadProperties(m, id == System);
    QueueOf(o);
    assert o.queue == q;
  }

  lemma QueueOf(o: TokenPrivateData)
    ensures o.Value().queue == o.queue
  {
  }

  /** The system token is not on its own list. */
  lemma MonitorsIn(id: TokenId, m: Props, n: nat, mons: set<TokenId>)
    requires Castable(id, m) && System !in mons
    ensures System !in TokenIn(id, m, n, mons).monitors
  {
  }

  /** Only the system token has a list. */
  lemma MonitorsElsewhere(id: TokenId, m: Props, n: nat, mons: set<TokenId>, mons': set<TokenId>)
    requires Castable(id, m) && (id == System ==> mons == mons')
    ensures TokenIn(id, m, n, mons) == TokenIn(id, m, n, mons')
  {
  }

  // ---------------------------------------------------------------- the class

  class ClusterLoop {
    const nodeCount: nat
    const ourNodeId: NodeId
    var started: bool
    var startedCluster: bool
    var clusterHandshakes: nat
    var nodes: set<NodeId>
    var tokenPrivate: map<TokenId, TokenPrivateData>
    var tokens: map<TokenId, Props>
    var pendingRequests: set<TokenId>
    var pendingGrants: set<TokenId>
    var outbox: seq<Sent>

    /** The token records and their arrays. */
    ghost var Repr: set<object>

    /** The records are the same objects, and nothing was sent. */
    ghost predicate Same(records: Records, repr: set<object>, sent: seq<Sent>)
      reads this
    {
      tokenPrivate == records && Repr == repr && outbox == sent
    }

    ghost predicate Valid()
      reads this, Repr
    {
      && ourNodeId < nodeCount <= U32_MAX && nodes <= Range(nodeCount)
      && this !in Repr && RecordsOk(tokenPrivate, nodeCount, Repr)
      && (started <==> System in tokenPrivate) && (startedCluster ==> started)
      && System !in tokens && (forall t :: t in tokens ==> Plain(tokens[t]))
      && (forall t :: t in pendingRequests && t != System ==> t in tokenPrivate)
    }

    /** The state as module Node describes it. */
    ghost function Value(): Node
      requires Valid()
      reads this, Repr
    {
      N.Node.Node(ourNodeId, nodeCount, started, startedCluster, clusterHandshakes, nodes,
                  Privs(tokenPrivate, Repr), MonitorsAt(tokenPrivate, Repr), tokens, pendingRequests, pendingGrants)
    }

    /** The fields are the parts of Value(). */
    lemma Mirror()
      requires Valid()
      ensures var v := Value();
        && NodeOk(v) && v.priv.Keys == tokenPrivate.Keys && v.pub == tokens && v.id == ourNodeId && v.n == nodeCount
        && v.started == started && v.startedCluster == startedCluster && v.handshakes == clusterHandshakes && v.peers == nodes
        && v.pendingRequests == pendingRequests && v.pendingGrants == pendingGrants
    {
    }

    lemma RecordOk(t: TokenId)
      requires RecordsOk(tokenPrivate, nodeCount, Repr) && t in tokenPrivate
      ensures var o := tokenPrivate[t];
        && o.Valid() && o.nodes == nodeCount && System !in o.monitors && (t == System ==> o.created)
        && o in Repr && o.ln in Repr && o.rn in Repr && Covers(tokenPrivate, Repr)
      ensures forall x :: x in tokenPrivate && x != t ==> Apart(tokenPrivate[t], tokenPrivate[x])
      ensures tokenPrivate[t].Value().Sized(nodeCount) && tokenPrivate[t].Value().queue == tokenPrivate[t].queue
      ensures Privs(tokenPrivate, Repr).Keys == tokenPrivate.Keys && Privs(tokenPrivate, Repr)[t] == tokenPrivate[t].Value()
      ensures t == System ==> MonitorsAt(tokenPrivate, Repr) == tokenPrivate[t].monitors
    {
    }

    lemma RecordMirror(t: TokenId)
      requires Valid() && t in tokenPrivate
      ensures t in Value().priv && Value().priv[t] == tokenPrivate[t].Value() && tokenPrivate[t] in Repr
      ensures t == System ==> Value().monitors == tokenPrivate[t].monitors
    {
    }

    /** Only the record of id was written to. */
    twostate lemma WrotePrivs(id: TokenId)
      requires unchanged(this) && id in tokenPrivate && Covers(tokenPrivate, Repr)
      requires forall t :: t in tokenPrivate && t != id ==> unchanged(tokenPrivate[t], tokenPrivate[t].ln, tokenPrivate[t].rn)
      ensures Privs(tokenPrivate, Repr) == old(Privs(tokenPrivate, Repr))[id := tokenPrivate[id].Value()]
    {
      forall t | t in tokenPrivate && t != id
        ensures tokenPrivate[t].Value() == old(tokenPrivate[t].Value())
      {
      }
    }

    twostate lemma WroteOk(id: TokenId)
      requires unchanged(this) && id in tokenPrivate && old(RecordsOk(tokenPrivate, nodeCount, Repr))
      requires forall t :: t in tokenPrivate && t != id ==> unchanged(tokenPrivate[t])
      requires tokenPrivate[id].Valid() && System !in tokenPrivate[id].monitors && (id == System ==> tokenPrivate[id].created)
      ensures RecordsOk(tokenPrivate, nodeCount, Repr)
      ensures MonitorsAt(tokenPrivate, Repr) == if id == System then tokenPrivate[id].monitors else old(MonitorsAt(tokenPrivate, Repr))
    {
    }

    lemma Facts(t: TokenId)
      requires Valid() && t in tokenPrivate
      ensures var o := tokenPrivate[t];
        && o.Valid() && o.nodes == nodeCount && ourNodeId < nodeCount && System !in o.monitors && (t == System ==> o.created)
        && this !in Repr && o in Repr && o.ln in Repr && o.rn in Repr && Value().n == nodeCount
        && t in Value().priv && Value().priv[t] == o.Value() && o.Value().Sized(nodeCount) && o.Value().queue == o.queue
        && |o.Value().rn| == nodeCount && o.Value().rn == o.rn[..]
        && (t == System ==> Value().monitors == o.monitors)
      ensures forall x :: x in tokenPrivate && x != t ==> Apart(tokenPrivate[t], tokenPrivate[x])
    {
      hide RecordsOk, Privs, MonitorsAt, Covers;
      RecordOk(t);
    }

    /** Only the record of id was written to, and it is in order. */
    twostate lemma Wrote(id: TokenId)
      requires old(Valid()) && unchanged(this) && id in tokenPrivate
      requires forall t :: t in tokenPrivate && t != id ==> unchanged(tokenPrivate[t], tokenPrivate[t].ln, tokenPrivate[t].rn)
      requires tokenPrivate[id].Valid() && System !in tokenPrivate[id].monitors && (id == System ==> tokenPrivate[id].created)
      ensures Valid()
      ensures Value() == Record(old(Value()), id, tokenPrivate[id].Value()).(monitors := if id == System then tokenPrivate[id].monitors else old(Value()).monitors)
      ensures Value().priv[id] == tokenPrivate[id].Value() && Value().priv[id].rn == tokenPrivate[id].rn[..]
      ensures Value().priv[id].queue == tokenPrivate[id].queue
    {
      hide RecordsOk, Privs, MonitorsAt, Covers, Plain;
      WroteOk(id);
      Covered();
      WrotePrivs(id);
    }

    lemma Covered()
      requires RecordsOk(tokenPrivate, nodeCount, Repr)
      ensures Covers(tokenPrivate, Repr)
    {
    }

    // -------------------------------------------------------------- on one record

    method NextNumber(id: TokenId) returns (num: U32)
      requires Valid() && id in tokenPrivate
      modifies this, Repr
      ensures Valid() && Same(old(tokenPrivate), old(Repr), old(outbox)) && id in old(Value()).priv
      ensures |old(Value()).priv[id].rn| == nodeCount
      ensures Value() == Record(old(Value()), id, Token.IncrementRequestNumber(old(Value()).priv[id], ourNodeId))
      ensures num == Value().priv[id].rn[ourNodeId]
    {
      hide Valid, Value, TokenPrivateData.Value, NewPriv, Token.IncrementRequestNumber, Token.UpdateRequestNumber, Token.Release, Load, TokenIn, Castable, InRange;
      Facts(id);
      num := tokenPrivate[id].IncrementRequestNumber(ourNodeId);
      Wrote(id);
    }

    method NoteNumber(id: TokenId, node: NodeId, num: U32)
      requires Valid() && id in tokenPrivate && node < nodeCount
      modifies this, Repr
      ensures Valid() && Same(old(tokenPrivate), old(Repr), old(outbox)) && id in old(Value()).priv
      ensures |old(Value()).priv[id].rn| == nodeCount
      ensures Value() == Record(old(Value()), id, Token.UpdateRequestNumber(old(Value()).priv[id], node, num))
    {
      hide Valid, Value, TokenPrivateData.Value, NewPriv, Token.IncrementRequestNumber, Token.UpdateRequestNumber, Token.Release, Load, TokenIn, Castable, InRange;
      Facts(id);
      tokenPrivate[id].UpdateRequestNumber(node, num);
      Wrote(id);
    }

    method SetLocked(id: TokenId, b: bool)
      requires Valid() && id in tokenPrivate
      modifies this, Repr
      ensures Valid() && Same(old(tokenPrivate), old(Repr), old(outbox)) && id in old(Value()).priv
      ensures Value() == Record(old(Value()), id, old(Value()).priv[id].(locked := b))
    {
      hide Valid, Value, NewPriv, Token.IncrementRequestNumber, Token.UpdateRequestNumber, Token.Release, Load, TokenIn, Castable, InRange;
      Facts(id);
      tokenPrivate[id].locked := b;
      Wrote(id);
    }

    method SetOwned(id: TokenId, b: bool)
      requires Valid() && id in tokenPrivate
      modifies this, Repr
      ensures Valid() && Same(old(tokenPrivate), old(Repr), old(outbox)) && id in old(Value()).priv
      ensures Value() == Record(old(Value()), id, old(Value()).priv[id].(owned := b))
    {
      hide Valid, Value, NewPriv, Token.IncrementRequestNumber, Token.UpdateRequestNumber, Token.Release, Load, TokenIn, Castable, InRange;
      Facts(id);
      tokenPrivate[id].owned := b;
      Wrote(id);
    }

    method SetCreated(id: TokenId)
      requires Valid() && id in tokenPrivate
      modifies this, Repr
      ensures Valid() && Same(old(tokenPrivate), old(Repr), old(outbox)) && id in old(Value()).priv
      ensures Value() == Record(old(Value()), id, old(Value()).priv[id].(created := true))
    {
      hide Valid, Value, NewPriv, Token.IncrementRequestNumber, Token.UpdateRequestNumber, Token.Release, Load, TokenIn, Castable, InRange;
      Facts(id);
      tokenPrivate[id].created := true;
      Wrote(id);
    }

    method ReleaseRecord(id: TokenId) returns (waiting: bool)
      requires Valid() && id in tokenPrivate
      modifies this, Repr
      ensures Valid() && Same(old(tokenPrivate), old(Repr), old(outbox)) && id in old(Value()).priv
      ensures old(Value()).priv[id].Sized(nodeCount)
      ensures Value() == Record(old(Value()), id, Token.Release(old(Value()).priv[id], ourNodeId))
      ensures waiting <==> Token.Release(old(Value()).priv[id], ourNodeId).queue != []
    {
      hide Valid, Value, TokenPrivateData.Value, NewPriv, Token.IncrementRequestNumber, Token.UpdateRequestNumber, Token.Release, Load, TokenIn, Castable, InRange;
      Facts(id);
      waiting := tokenPrivate[id].Release(ourNodeId);
      Wrote(id);
    }

    method PopQueue(id: TokenId) returns (target: NodeId)
      requires Valid() && id in tokenPrivate && id in Value().priv && Value().priv[id].queue != []
      modifies this, Repr
      ensures Valid() && Same(old(tokenPrivate), old(Repr), old(outbox)) && id in old(Value()).priv
      ensures var p := old(Value()).priv[id];
        p.queue != [] && target == p.queue[0] && Value() == Record(old(Value()), id, p.(queue := p.queue[1..]))
    {
      hide Valid, Value, TokenPrivateData.Value, NewPriv, Token.IncrementRequestNumber, Token.UpdateRequestNumber, Token.Release, Load, TokenIn, Castable, InRange;
      Facts(id);
      target := tokenPrivate[id].Pop();
      Wrote(id);
    }

    /** loadProperties on the record of id */
    method LoadRecord(id: TokenId, m: Props)
      requires Valid() && id in tokenPrivate && Castable(id, m) && InRange(nodeCount, TokenIn(id, m, nodeCount, Value().monitors))
      modifies this, Repr
      ensures Valid() && Same(old(tokenPrivate), old(Repr), old(outbox)) && id in old(Value()).priv
      ensures var d := TokenIn(id, m, nodeCount, old(Value()).monitors);
        var v := Record(old(Value()), id, Load(old(Value()).priv[id], nodeCount, d));
        Value() == if id == System then v.(monitors := d.monitors) else v
    {
      hide Valid, Value, TokenPrivateData.Value, NewPriv, Token.IncrementRequestNumber, Token.UpdateRequestNumber, Token.Release, Load, TokenIn, Castable, InRange;
      Facts(id);
      MonitorsElsewhere(id, m, nodeCount, Value().monitors, tokenPrivate[id].monitors);
      LoadInto(id, tokenPrivate[id], m, nodeCount);
      Wrote(id);
    }

    /** systemToken()->addMonitor(t) */
    method AddMonitor(t: TokenId)
      requires Valid() && System in tokenPrivate && t != System
      modifies this, Repr
      ensures Valid() && Same(old(tokenPrivate), old(Repr), old(outbox))
      ensures Value() == old(Value()).(monitors := old(Value()).monitors + {t})
    {
      hide Valid, Value, TokenPrivateData.Value, NewPriv, Token.IncrementRequestNumber, Token.UpdateRequestNumber, Token.Release, Load, TokenIn, Castable, InRange;
      Facts(System);
      tokenPrivate[System].AddMonitor(t);
      Wrote(System);
    }

    // -------------------------------------------------------------- on the sets

    /** m_tokens[id] := the process's variables */
    method SetToken(id: TokenId, props: Props)
      requires Valid() && id.Monitor? && Plain(props)
      modifies this
      ensures Valid() && Same(old(tokenPrivate), old(Repr), old(outbox))
      ensures Value() == old(Value()).(pub := old(Value()).pub[id := props])
    {
      hide RecordsOk, Privs, MonitorsAt;
      tokens := tokens[id := props];
    }

    method AddPendingRequest(id: TokenId)
      requires Valid() && (id == System || id in tokenPrivate)
      modifies this, Repr
      ensures Valid() && Same(old(tokenPrivate), old(Repr), old(outbox))
      ensures Value() == old(Value()).(pendingRequests := old(Value()).pendingRequests + {id})
    {
      hide RecordsOk, Privs, MonitorsAt;
      pendingRequests := pendingRequests + {id};
    }

    method ErasePendingRequest(id: TokenId)
      requires Valid()
      modifies this, Repr
      ensures Valid() && Same(old(tokenPrivate), old(Repr), old(outbox))
      ensures Value() == old(Value()).(pendingRequests := old(Value()).pendingRequests - {id})
    {
      hide RecordsOk, Privs, MonitorsAt;
      pendingRequests := pendingRequests - {id};
    }

    method AddPendingGrant(id: TokenId)
      requires Valid()
      modifies this, Repr
      ensures Valid() && Same(old(tokenPrivate), old(Repr), old(outbox))
      ensures Value() == old(Value()).(pendingGrants := old(Value()).pendingGrants + {id})
    {
      hide RecordsOk, Privs, MonitorsAt;
      pendingGrants := pendingGrants + {id};
    }

    method ErasePendingGrant(id: TokenId)
      requires Valid()
      modifies this, Repr
      ensures Valid() && Same(old(tokenPrivate), old(Repr), old(outbox))
      ensures Value() == old(Value()).(pendingGrants := old(Value()).pendingGrants - {id})
    {
      hide RecordsOk, Privs, MonitorsAt;
      pendingGrants := pendingGrants - {id};
    }

    // -------------------------------------------------------------- broadcasting, asking, granting, sending

    method Broadcast(packet: Wire)
      requires Valid()
      modifies this`outbox
      ensures Valid() && Value() == old(Value())
      ensures Sends(old(outbox), outbox, S.Broadcast(Value().peers, Meaning(packet)))
    {
      hide RecordsOk, Privs, MonitorsAt, Sends, Meaning, Plain, Covers, S.Broadcast;
      var todo := nodes;
      SendsNothing(outbox);
      BroadcastNone(nodes, Meaning(packet));
      while todo != {}
        invariant todo <= nodes && Valid() && Value() == old(Value())
        invariant Sends(old(outbox), outbox, S.Broadcast(nodes - todo, Meaning(packet)))
        decreases |todo|
      {
        var x :| x in todo;
        SendsOne(outbox, Sent(x, packet));
        BroadcastMore(nodes, todo, x, Meaning(packet));
        SendsMore(old(outbox), outbox, outbox + [Sent(x, packet)], S.Broadcast(nodes - todo, Meaning(packet)), {Out(x, Meaning(packet))});
        outbox := outbox + [Sent(x, packet)];
        todo := todo - {x};
      }
      assert nodes - {} == nodes;
    }

    /** requestToken; with the cluster up the record must be there, for the source dereferences it. */
    method RequestToken(id: TokenId)
      requires Valid() && (id == System || id in tokenPrivate)
      modifies this, Repr
      ensures Valid() && tokenPrivate == old(tokenPrivate) && Repr == old(Repr) && NodeOk(old(Value()))
      ensures var r := Asked(old(Value()), id); Value() == r.0 && Sends(old(outbox), outbox, r.1)
    {
      hide Valid, Value, Asked, Sends, NodeOk, Token.IncrementRequestNumber;
      Mirror();
      RecordThere(id);
      AskedMeans(Value(), id);
      SendsNothing(outbox);
      if id !in pendingRequests {
        var up := startedCluster;
        AddPendingRequest(id);
        if up {
          var num := NextNumber(id);
          Broadcast(Wire.RequestToken(id, num));
        }
      }
    }

    lemma RecordThere(id: TokenId)
      requires Valid() && (id == System || id in tokenPrivate)
      ensures startedCluster ==> id in tokenPrivate
    {
    }

    /** grant; the process is woken up. */
    method Grant(id: TokenId)
      requires Valid()
      modifies this, Repr
      ensures Valid() && Same(old(tokenPrivate), old(Repr), old(outbox))
      ensures Value() == Grants(old(Value()), id)
    {
      hide Valid, Value, Grants, NodeOk;
      Mirror();
      GrantsMeans(Value(), id);
      if id in tokenPrivate && id in tokens && id in pendingGrants {
        SetLocked(id, true);
        ErasePendingGrant(id);
      }
    }

    /** sendToken: save the token and the properties into a map, give up ownership, send. */
    method SendToken(id: TokenId, dst: NodeId)
      requires Valid() && id in tokenPrivate
      modifies this, Repr
      ensures Valid() && tokenPrivate == old(tokenPrivate) && Repr == old(Repr) && id in old(Value()).priv
      ensures var r := Handed(old(Value()), id, dst); Value() == r.0 && Sends(old(outbox), outbox, r.1)
    {
      hide Valid, Value, Handed, Cargo, Meaning;
      RecordMirror(id);
      HandedMeans(Value(), id, dst);
      var m := SaveAll(id);
      SetOwned(id, false);
      Send(dst, Wire.GiveToken(id, m));
    }

    /** TcpManager::sendTo for one client. */
    method Send(dst: NodeId, packet: Wire)
      requires Valid()
      modifies this`outbox
      ensures Valid() && Value() == old(Value())
      ensures Sends(old(outbox), outbox, {Out(dst, Meaning(packet))})
    {
      SendsOne(outbox, Sent(dst, packet));
      hide RecordsOk, Privs, MonitorsAt, Meaning;
      outbox := outbox + [Sent(dst, packet)];
    }

    /** Saves the token and the properties into a map that reads back as the same token. */
    method SaveAll(id: TokenId) returns (m: Props)
      requires Valid() && id in tokenPrivate
      ensures id in Value().priv && Meaning(Wire.GiveToken(id, m)) == Give(id, Cargo(Value(), id))
    {
      RecordMirror(id);
      RecordOk(id);
      ghost var names;
      m, names := tokenPrivate[id].SaveProperties(map[], id == System);
      ghost var m0 := SaveToken(map[], tokenPrivate[id].Value());
      if id in tokens {
        m := SaveVars(m, tokens[id]);
      }
      CargoPacked(Value(), id, tokenPrivate[id].monitors, m0, m, names);
    }

    /** release, pop and sendToken, as requestUnlock and packetGiveToken do it. */
    method PassOn(id: TokenId)
      requires Valid() && id in tokenPrivate
      modifies this, Repr
      ensures Valid() && tokenPrivate == old(tokenPrivate) && Repr == old(Repr) && NodeOk(old(Value())) && id in old(Value()).priv
      ensures var r := Passed(old(Value()), id); Value() == r.0 && Sends(old(outbox), outbox, r.1)
    {
      hide Valid, Value, Passed, Handed, NodeOk, Sends, Token.Release;
      Mirror();
      PassedMeans(Value(), id);
      SendsNothing(outbox);
      var waiting := ReleaseRecord(id);
      if waiting {
        var target := PopQueue(id);
        SendToken(id, target);
      }
    }

    // -------------------------------------------------------------- requests of the process

    method RequestLock(id: TokenId)
      requires Valid()
      modifies this, Repr
      ensures Valid() && tokenPrivate == old(tokenPrivate) && Repr == old(Repr) && NodeOk(old(Value()))
      ensures var r := LockRequested(old(Value()), id); Value() == r.0 && Sends(old(outbox), outbox, r.1)
    {
      hide Valid, Value, LockRequested, Grants, Asked, Sends, NodeOk;
      Mirror();
      LockMeans(Value(), id);
      SendsNothing(outbox);
      if id in tokenPrivate {
        RecordMirror(id);
      }
      if id !in tokenPrivate || id !in tokens || tokenPrivate[id].locked {
        return;
      }
      var up, owned := startedCluster, tokenPrivate[id].owned;
      AddPendingGrant(id);
      if up {
        if owned {
          Grant(id);
        } else {
          RequestToken(id);
        }
      }
    }

    method RequestUnlock(id: TokenId)
      requires Valid() && id.Monitor?
      modifies this, Repr
      ensures Valid() && tokenPrivate == old(tokenPrivate) && Repr == old(Repr) && NodeOk(old(Value()))
      ensures var r := UnlockRequested(old(Value()), id); Value() == r.0 && Sends(old(outbox), outbox, r.1)
    {
      hide Valid, Value, UnlockRequested, Passed, Sends, NodeOk;
      Mirror();
      UnlockMeans(Value(), id);
      SendsNothing(outbox);
      if id in tokenPrivate {
        RecordMirror(id);
      }
      if id !in tokenPrivate || !tokenPrivate[id].locked {
        return;
      }
      SetLocked(id, false);
      PassOn(id);
    }

    // -------------------------------------------------------------- new records

    /** m_tokenPrivate.emplace of a new record */
    method NewRecord(id: TokenId, created: bool, owned: bool)
      requires Valid() && id !in tokenPrivate && id != System
      modifies this
      ensures Valid() && outbox == old(outbox) && id in tokenPrivate && fresh(Repr - old(Repr))
      ensures Value() == Record(old(Value()), id, NewPriv(nodeCount, created, owned))
    {
      hide RecordsOk, Privs, MonitorsAt, Covers, TokenPrivateData.Valid, TokenPrivateData.Value, NewPriv, Plain;
      var o := new TokenPrivateData(nodeCount, created, owned);
      assert Valid() && Value() == old(Value());
      InsertedOk(id, o);
      tokenPrivate := tokenPrivate[id := o];
      Repr := Repr + {o, o.ln, o.rn};
    }

    /** A record with parts of its own joins the others. */
    lemma InsertedOk(id: TokenId, o: TokenPrivateData)
      requires Valid() && id !in tokenPrivate
      requires o.Valid() && o.nodes == nodeCount && System !in o.monitors && (id == System ==> o.created)
      requires {o, o.ln, o.rn} !! Repr
      ensures var m := tokenPrivate[id := o];
        var r := Repr + {o, o.ln, o.rn};
        && RecordsOk(m, nodeCount, r) && Privs(m, r) == Value().priv[id := o.Value()]
        && MonitorsAt(m, r) == if id == System then o.monitors else Value().monitors
    {
      hide Privs, MonitorsAt, TokenPrivateData.Value;
      InsertedMirror(id, o);
    }

    lemma InsertedMirror(id: TokenId, o: TokenPrivateData)
      requires Valid() && id !in tokenPrivate
      ensures var m := tokenPrivate[id := o];
        var r := Repr + {o, o.ln, o.rn};
        && Covers(m, r) && Privs(m, r) == Value().priv[id := o.Value()]
        && MonitorsAt(m, r) == if id == System then o.monitors else Value().monitors
    {
      hide TokenPrivateData.Value, Plain;
    }

    // -------------------------------------------------------------- packets about one token

    method PacketRequestToken(id: TokenId, from: NodeId, num: U32)
      requires Valid() && from < nodeCount
      modifies this, Repr
      ensures Valid() && fresh(Repr - old(Repr)) && NodeOk(old(Value()))
      ensures var r := RequestTokenIn(old(Value()), id, from, num); Value() == r.0 && Sends(old(outbox), outbox, r.1)
    {
      hide Valid, Value, RequestTokenIn, Handed, Sends, NodeOk, NewPriv, Token.UpdateRequestNumber;
      Mirror();
      RequestMeans(Value(), id, from, num);
      SendsNothing(outbox);
      StartedMeans();
      if !started {
        return;
      }
      if id !in tokenPrivate {
        NewRecord(id, true, false);
      }
      NoteNumber(id, from, num);
      RecordMirror(id);
      RecordSized(id);
      var priv := tokenPrivate[id];
      if priv.owned && !priv.locked && priv.rn[from] == Succ32(priv.ln[from]) {
        SendToken(id, from);
      }
    }

    lemma StartedMeans()
      requires Valid()
      ensures started <==> System in tokenPrivate
    {
    }

    lemma RecordSized(id: TokenId)
      requires Valid() && id in tokenPrivate
      ensures tokenPrivate[id].ln.Length == nodeCount && tokenPrivate[id].rn.Length == nodeCount
    {
    }

    // -------------------------------------------------------------- the remaining handlers

    method HandleNew(id: TokenId, props: Props)
      requires Valid() && id.Monitor? && Plain(props)
      modifies this, Repr
      ensures Valid() && fresh(Repr - old(Repr)) && NodeOk(old(Value()))
      ensures var r := N.HandleNew(old(Value()), id, props); Value() == r.0 && Sends(old(outbox), outbox, r.1)
    {
      hide Valid, Value, N.HandleNew, Asked, Sends, NodeOk, NewPriv, Plain, Record;
      Mirror();
      NewMeans(Value(), id, props);
      SendsNothing(outbox);
      if id in tokens {
        return;
      }
      SetToken(id, props);
      Mirror();
      if id !in tokenPrivate {
        Enter(id);
      }
    }

    /** The part of handleNew that makes the record. */
    method Enter(id: TokenId)
      requires Valid() && id !in tokenPrivate && id.Monitor? && NodeOk(Value())
      modifies this, Repr
      ensures Valid() && fresh(Repr - old(Repr))
      ensures var v := old(Value());
        && (forall b, b' :: NodeOk(Record(v, id, NewPriv(v.n, b, b'))))
        && var r :=
            if !v.started then
              if v.id == 0 then (Record(v, id, NewPriv(v.n, true, true)), {})
              else Asked(Record(v, id, NewPriv(v.n, false, false)), System)
            else if id in v.monitors then (Record(v, id, NewPriv(v.n, true, false)), {})
            else if System in v.priv && v.priv[System].owned then
              (Record(v, id, NewPriv(v.n, true, true)).(monitors := v.monitors + {id}), {})
            else Asked(Record(v, id, NewPriv(v.n, false, false)), System);
          Value() == r.0 && Sends(old(outbox), outbox, r.1)
    {
      hide Valid, Value, Asked, Sends, NodeOk, NewPriv;
      Mirror();
      if started {
        Register(id);
      } else {
        NewRecordsOk(Value(), id);
        SendsNothing(outbox);
        NewRecord(id, ourNodeId == 0, ourNodeId == 0);
        if ourNodeId != 0 {
          RequestToken(System);
        }
      }
    }

    /** The part of handleNew that looks at the system token. */
    method Register(id: TokenId)
      requires Valid() && started && id !in tokenPrivate && id.Monitor? && NodeOk(Value())
      modifies this, Repr
      ensures Valid() && fresh(Repr - old(Repr))
      ensures var v := old(Value());
        && (forall b, b' :: NodeOk(Record(v, id, NewPriv(v.n, b, b'))))
        && var r :=
            if id in v.monitors then (Record(v, id, NewPriv(v.n, true, false)), {})
            else if System in v.priv && v.priv[System].owned then
              (Record(v, id, NewPriv(v.n, true, true)).(monitors := v.monitors + {id}), {})
            else Asked(Record(v, id, NewPriv(v.n, false, false)), System);
          Value() == r.0 && Sends(old(outbox), outbox, r.1)
    {
      hide Valid, Value, Asked, Sends, NodeOk, NewPriv;
      Mirror();
      StartedMeans();
      RecordMirror(System);
      NewRecordsOk(Value(), id);
      SendsNothing(outbox);
      var system := tokenPrivate[System];
      if id in system.monitors {
        NewRecord(id, true, false);
      } else if system.owned {
        NewRecord(id, true, true);
        Mirror();
        AddMonitor(id);
      } else {
        NewRecord(id, false, false);
        RequestToken(System);
      }
    }

    /** One round of the loop of packetGiveToken. */
    method AdoptRecord(id: TokenId)
      requires Valid() && id in tokenPrivate && id != System && System in tokenPrivate
      modifies this, Repr
      ensures Valid() && tokenPrivate == old(tokenPrivate) && Repr == old(Repr) && NodeOk(old(Value()))
      ensures var r := AdoptedOne(old(Value()), id); Value() == r.0 && Sends(old(outbox), outbox, r.1)
    {
      hide Valid, Value, AdoptedOne, Asked, Grants, Sends, NodeOk;
      Mirror();
      RecordMirror(id);
      RecordMirror(System);
      SendsNothing(outbox);
      RoundSlot(Value(), id);
      if tokenPrivate[id].created {
        return;
      }
      AdoptedMeans(Value(), id);
      var known := id in tokenPrivate[System].monitors;
      SetCreated(id);
      if known {
        SetOwned(id, false);
        Mirror();
        if id in pendingGrants {
          RequestToken(id);
        }
      } else {
        SetOwned(id, true);
        AddMonitor(id);
        Grant(id);
      }
    }

    /** The loop of packetGiveToken over all records, in any order. */
    method AdoptRecords(ghost v0: Node)
      requires Valid() && System in tokenPrivate && v0 == Value()
      modifies this, Repr
      ensures Valid() && tokenPrivate == old(tokenPrivate) && Repr == old(Repr)
      ensures AdoptedSome(v0, Value(), old(tokenPrivate).Keys - {System})
      ensures Sends(old(outbox), outbox, AdoptOuts(v0, old(tokenPrivate).Keys - {System}))
    {
      hide Valid, Value, AdoptedOne, AdoptedSome, AdoptOuts, Sends, NodeOk;
      Mirror();
      AdoptStart(v0);
      SendsNothing(outbox);
      var all := tokenPrivate.Keys - {System};
      var todo := all;
      assert all - todo == {};
      while todo != {}
        invariant todo <= all && Valid() && tokenPrivate == old(tokenPrivate) && Repr == old(Repr)
        invariant AdoptedSome(v0, Value(), all - todo) && Sends(old(outbox), outbox, AdoptOuts(v0, all - todo))
        decreases |todo|
      {
        var id :| id in todo;
        AdoptNext(v0, all - todo, id, old(outbox));
        assert all - (todo - {id}) == all - todo + {id};
        todo := todo - {id};
      }
      assert all - {} == all;
    }

    method AdoptNext(ghost v0: Node, ghost done: set<TokenId>, id: TokenId, ghost start: seq<Sent>)
      requires Valid() && id in tokenPrivate && id != System && System in tokenPrivate && id !in done
      requires NodeOk(v0) && AdoptedSome(v0, Value(), done) && Sends(start, outbox, AdoptOuts(v0, done))
      modifies this, Repr
      ensures Valid() && tokenPrivate == old(tokenPrivate) && Repr == old(Repr)
      ensures AdoptedSome(v0, Value(), done + {id}) && Sends(start, outbox, AdoptOuts(v0, done + {id}))
    {
      hide Valid, Value, AdoptedOne, AdoptedSome, AdoptOuts, Sends, NodeOk, Adopt, Unsettled;
      Mirror();
      AdoptRound(v0, Value(), done, id);
      AdoptOutsGrow(v0, done, id);
      ghost var sent := outbox;
      ghost var more := AdoptedOne(Value(), id).1;
      AdoptRecord(id);
      SendsMore(start, sent, outbox, AdoptOuts(v0, done), more);
    }

    method PacketGiveToken(id: TokenId, data: Props)
      requires Valid() && Castable(id, data) && InRange(nodeCount, TokenIn(id, data, nodeCount, Value().monitors))
      modifies this, Repr
      ensures Valid() && tokenPrivate == old(tokenPrivate) && Repr == old(Repr) && NodeOk(old(Value()))
      ensures var r := GiveTokenIn(old(Value()), id, TokenIn(id, data, nodeCount, old(Value()).monitors)); Value() == r.0 && Sends(old(outbox), outbox, r.1)
    {
      hide Valid, Value, GiveTokenIn, Sends, NodeOk, TokenIn, Load;
      Mirror();
      StartedMeans();
      SendsNothing(outbox);
      ghost var d := TokenIn(id, data, nodeCount, Value().monitors);
      DiscardMeans(Value(), id, d);
      if id in tokenPrivate {
        RecordMirror(id);
      }
      if !started || id !in tokenPrivate || tokenPrivate[id].owned {
        return;
      }
      if id == System {
        ReceiveSystem(data);
      } else {
        ReceiveMonitor(id, data);
      }
    }

    /** The first half of packetGiveToken. */
    method TakePossession(id: TokenId, data: Props)
      requires Valid() && id in tokenPrivate && Castable(id, data) && InRange(nodeCount, TokenIn(id, data, nodeCount, Value().monitors))
      modifies this, Repr
      ensures Valid() && Same(old(tokenPrivate), old(Repr), old(outbox)) && id in old(Value()).priv
      ensures var d := TokenIn(id, data, nodeCount, old(Value()).monitors);
        Value() == if id == System then Possessed(old(Value()), id, d).(monitors := d.monitors) else Possessed(old(Value()), id, d)
    {
      hide Valid, Value, Load, TokenIn, NodeOk, Castable, InRange, Record;
      Facts(id);
      ghost var v := Value();
      ErasePendingRequest(id);
      SetOwned(id, true);
      PossessedSteps(v, id, TokenIn(id, data, nodeCount, v.monitors));
      LoadRecord(id, data);
    }

    /** pendingRequests.erase, setOwned and loadProperties, one after another */
    static lemma PossessedSteps(v: Node, id: TokenId, d: TokenData)
      requires id in v.priv
      ensures var v1 := v.(pendingRequests := v.pendingRequests - {id});
        && id in v1.priv && var v2 := Record(v1, id, v1.priv[id].(owned := true));
        && id in v2.priv && v2.monitors == v.monitors && Record(v2, id, Load(v2.priv[id], v.n, d)) == Possessed(v, id, d)
    {
      hide Load;
      RecordTwice(v, id, v.priv[id].(owned := true), Load(v.priv[id].(owned := true), v.n, d));
    }

    method ReceiveMonitor(id: TokenId, data: Props)
      requires Valid() && started && id in tokenPrivate && id.Monitor? && Castable(id, data) && InRange(nodeCount, TokenIn(id, data, nodeCount, Value().monitors))
      requires !tokenPrivate[id].owned
      modifies this, Repr
      ensures Valid() && tokenPrivate == old(tokenPrivate) && Repr == old(Repr) && NodeOk(old(Value()))
      ensures var r := GiveTokenIn(old(Value()), id, TokenIn(id, data, nodeCount, old(Value()).monitors)); Value() == r.0 && Sends(old(outbox), outbox, r.1)
    {
      hide Valid, Value, GiveTokenIn, Sends, NodeOk, Load, TokenIn, LoadProps, Plain, Grants;
      Mirror();
      RecordMirror(id);
      SendsNothing(outbox);
      GiveMeans(Value(), id, TokenIn(id, data, nodeCount, Value().monitors));
      if id in tokens {
        BoundPlain(id);
        LoadPropsUnpacked(id, tokens[id], data, nodeCount, Value().monitors);
      }
      TakePossession(id, data);
      Mirror();
      if id !in tokens {
        return;
      }
      PlainLoad(tokens[id], data);
      SetToken(id, LoadProps(tokens[id], data));
      Grant(id);
    }

    lemma BoundPlain(id: TokenId)
      requires Valid() && id in tokens
      ensures Plain(tokens[id])
    {
    }

    method ReceiveSystem(data: Props)
      requires Valid() && started && System in tokenPrivate && Castable(System, data) && InRange(nodeCount, TokenIn(System, data, nodeCount, Value().monitors))
      requires !tokenPrivate[System].owned
      modifies this, Repr
      ensures Valid() && tokenPrivate == old(tokenPrivate) && Repr == old(Repr) && NodeOk(old(Value()))
      ensures var r := GiveTokenIn(old(Value()), System, TokenIn(System, data, nodeCount, old(Value()).monitors)); Value() == r.0 && Sends(old(outbox), outbox, r.1)
    {
      hide Valid, Value, GiveTokenIn, Sends, NodeOk, Load, TokenIn, Passed, AdoptedSome, AdoptOuts;
      Mirror();
      RecordMirror(System);
      ghost var v := Value();
      ghost var d := TokenIn(System, data, nodeCount, v.monitors);
      TakePossession(System, data);
      ghost var v1 := Value();
      ghost var all := tokenPrivate.Keys - {System};
      Mirror();
      AdoptRecords(v1);
      Mirror();
      SystemMeans(v, d, Value(), all);
      ghost var sent := outbox;
      ghost var more := Passed(Value(), System).1;
      PassOn(System);
      SendsMore(old(outbox), sent, outbox, AdoptOuts(v1, all), more);
    }

    // -------------------------------------------------------------- starting up

    constructor (nodeCount: nat, ourNodeId: NodeId)
      requires ourNodeId < nodeCount <= U32_MAX
      ensures Valid() && fresh(Repr) && Value() == NewNode(nodeCount, ourNodeId) && outbox == []
    {
      hide Valid, Value, NewPriv;
      this.nodeCount, this.ourNodeId := nodeCount, ourNodeId;
      started, startedCluster, clusterHandshakes, nodes := false, false, 0, {};
      tokenPrivate, tokens, pendingRequests, pendingGrants, outbox, Repr := map[], map[], {}, {}, [], {};
      new;
      Empty();
      if nodeCount == 1 {
        StartSystem();
        SetStartedCluster();
        assert Value().priv == map[System := NewPriv(nodeCount, true, ourNodeId == 0)];
      }
    }

    lemma Empty()
      requires ourNodeId < nodeCount <= U32_MAX && tokenPrivate == map[] && tokens == map[] && Repr == {} && nodes == {}
      requires !started && !startedCluster && pendingRequests == {} && pendingGrants == {}
      ensures Valid() && Value() == N.Node.Node(ourNodeId, nodeCount, false, false, clusterHandshakes, {}, map[], {}, map[], {}, {})
    {
    }

    method HandleConnect(peer: NodeId)
      requires Valid() && peer < nodeCount
      modifies this, Repr
      ensures Valid() && fresh(Repr - old(Repr))
      ensures var r := N.HandleConnect(old(Value()), peer); Value() == r.0 && Sends(old(outbox), outbox, r.1)
    {
      hide Valid, Value, Sends, NewPriv, NodeOk;
      Mirror();
      StartedMeans();
      SendsNothing(outbox);
      AddPeer(peer);
      Mirror();
      StartedMeans();
      if |nodes| >= nodeCount - 1 && !started {
        Broadcast(ClusterHandshake);
        StartSystem();
      }
    }

    /** m_nodes[peer] := the client */
    method AddPeer(peer: NodeId)
      requires Valid() && peer < nodeCount
      modifies this
      ensures Valid() && Same(old(tokenPrivate), old(Repr), old(outbox))
      ensures Value() == old(Value()).(peers := old(Value()).peers + {peer})
    {
      hide RecordsOk, Privs, MonitorsAt;
      nodes := nodes + {peer};
    }

    /** The record of the system token; node 0 owns it and registers what it has created so far. */
    method StartSystem()
      requires Valid() && !started
      modifies this
      ensures Valid() && started && outbox == old(outbox) && fresh(Repr - old(Repr))
      ensures var v := old(Value());
        Value() == v.(started := true, priv := v.priv[System := NewPriv(nodeCount, true, ourNodeId == 0)],
                      monitors := if ourNodeId == 0 then v.priv.Keys else {})
    {
      hide *;
      StartedMeans();
      Mirror();
      var o := NewSystemRecord();
      Insert(System, o);
      started := true;
      SystemInserted(o);
    }

    /** A record with parts of its own joins the others; whether the node has started is for the caller to settle. */
    method Insert(id: TokenId, o: TokenPrivateData)
      requires Valid() && id !in tokenPrivate && o.Valid() && o.nodes == nodeCount && System !in o.monitors && (id == System ==> o.created)
      requires {o, o.ln, o.rn} !! Repr
      modifies this`tokenPrivate, this`Repr
      ensures tokenPrivate == old(tokenPrivate)[id := o] && Repr == old(Repr) + {o, o.ln, o.rn} && this !in Repr
      ensures RecordsOk(tokenPrivate, nodeCount, Repr) && Privs(tokenPrivate, Repr) == old(Value()).priv[id := o.Value()]
      ensures MonitorsAt(tokenPrivate, Repr) == if id == System then o.monitors else old(Value()).monitors
    {
      hide Valid, Value, RecordsOk, Privs, MonitorsAt, Covers, TokenPrivateData.Valid, TokenPrivateData.Value;
      Outside();
      InsertedOk(id, o);
      tokenPrivate := tokenPrivate[id := o];
      Repr := Repr + {o, o.ln, o.rn};
    }

    lemma Outside()
      requires Valid()
      ensures this !in Repr
    {
    }

    twostate lemma SystemInserted(new o: TokenPrivateData)
      requires old(Valid()) && !old(started) && started && tokenPrivate == old(tokenPrivate)[System := o] && Repr == old(Repr) + {o, o.ln, o.rn}
      requires RecordsOk(tokenPrivate, nodeCount, Repr) && Privs(tokenPrivate, Repr) == old(Value()).priv[System := o.Value()]
      requires MonitorsAt(tokenPrivate, Repr) == o.monitors
      requires startedCluster == old(startedCluster) && clusterHandshakes == old(clusterHandshakes) && nodes == old(nodes) && tokens == old(tokens)
      requires pendingRequests == old(pendingRequests) && pendingGrants == old(pendingGrants)
      ensures Valid() && Value() == old(Value()).(started := true, priv := old(Value()).priv[System := o.Value()], monitors := o.monitors)
    {
      hide RecordsOk, Privs, MonitorsAt, Covers, Plain, TokenPrivateData.Value;
    }

    method NewSystemRecord() returns (o: TokenPrivateData)
      requires System !in tokenPrivate
      ensures fresh(o) && fresh(o.ln) && fresh(o.rn) && o.Valid() && o.nodes == nodeCount
      ensures o.Value() == NewPriv(nodeCount, true, ourNodeId == 0) && o.created
      ensures o.monitors == if ourNodeId == 0 then tokenPrivate.Keys else {}
    {
      hide TokenPrivateData.Value, TokenPrivateData.Valid, NewPriv;
      o := new TokenPrivateData(nodeCount, true, ourNodeId == 0);
      if ourNodeId == 0 {
        var todo := tokenPrivate.Keys;
        while todo != {}
          invariant todo <= tokenPrivate.Keys && o.monitors == tokenPrivate.Keys - todo
          invariant o.Valid() && o.created && o.Value() == NewPriv(nodeCount, true, ourNodeId == 0)
          decreases |todo|
        {
          var t :| t in todo;
          o.AddMonitor(t);
          todo := todo - {t};
        }
      }
    }

    method PacketClusterHandshake()
      requires Valid() && (clusterHandshakes + 1 >= nodeCount - 1 ==> started)
      modifies this, Repr
      ensures Valid() && tokenPrivate == old(tokenPrivate) && Repr == old(Repr) && NodeOk(old(Value()))
      ensures var r := HandshakeIn(old(Value())); Value() == r.0 && Sends(old(outbox), outbox, r.1)
    {
      hide Valid, Value, Sends, NodeOk, ComeUpAll;
      Mirror();
      CountHandshake();
      SendsNothing(outbox);
      Mirror();
      StartedMeans();
      if clusterHandshakes >= nodeCount - 1 && !startedCluster {
        SetStartedCluster();
        ghost var v0 := Value();
        GrantAll();
        RequestAll(v0);
        UpMeans(v0, Value());
      }
    }

    method CountHandshake()
      requires Valid()
      modifies this
      ensures Valid() && Same(old(tokenPrivate), old(Repr), old(outbox)) && started == old(started)
      ensures Value() == old(Value()).(handshakes := old(Value()).handshakes + 1)
    {
      hide RecordsOk, Privs, MonitorsAt;
      clusterHandshakes := clusterHandshakes + 1;
    }

    method SetStartedCluster()
      requires Valid() && started
      modifies this
      ensures Valid() && Same(old(tokenPrivate), old(Repr), old(outbox)) && started
      ensures Value() == old(Value()).(startedCluster := true)
    {
      hide RecordsOk, Privs, MonitorsAt;
      startedCluster := true;
    }

    /** The first loop of packetClusterHandshake, over a snapshot of m_pendingGrants. */
    method GrantAll()
      requires Valid() && started
      modifies this, Repr
      ensures Valid() && Same(old(tokenPrivate), old(Repr), old(outbox)) && started
      ensures NodeOk(old(Value())) && RequestedSome(old(Value()), Value(), {}) && Value().pendingRequests == old(Value()).pendingRequests
    {
      hide Valid, Value, NodeOk, GrantedSome, RequestedSome;
      Mirror();
      ghost var v0 := Value();
      var all := pendingGrants;
      var todo := all;
      assert all - todo == {};
      GrantsStart(v0);
      while todo != {}
        invariant todo <= all && Valid() && Same(old(tokenPrivate), old(Repr), old(outbox)) && GrantedSome(v0, Value(), all - todo)
        decreases |todo|
      {
        var id :| id in todo;
        GrantNext(v0, all - todo, id);
        assert all - (todo - {id}) == all - todo + {id};
        todo := todo - {id};
      }
      assert all - {} == v0.pendingGrants;
      GrantsDone(v0, Value());
      Mirror();
      SameStarted(v0, Value());
    }

    method GrantNext(ghost v0: Node, ghost done: set<TokenId>, id: TokenId)
      requires Valid() && id !in done && GrantedSome(v0, Value(), done)
      modifies this, Repr
      ensures Valid() && Same(old(tokenPrivate), old(Repr), old(outbox))
      ensures GrantedSome(v0, Value(), done + {id})
    {
      hide Valid, Value, NodeOk, GrantedSome, Grants;
      Mirror();
      GrantRound(v0, Value(), done, id);
      if id in tokenPrivate {
        RecordMirror(id);
        if tokenPrivate[id].owned {
          Grant(id);
        }
      }
    }

    /** Its second loop, over m_pendingRequests. */
    method RequestAll(ghost v0: Node)
      requires Valid() && started && NodeOk(v0) && RequestedSome(v0, Value(), {}) && Value().pendingRequests == v0.pendingRequests
      modifies this, Repr
      ensures Valid() && tokenPrivate == old(tokenPrivate) && Repr == old(Repr) && RequestedSome(v0, Value(), v0.pendingRequests)
      ensures Sends(old(outbox), outbox, UpOuts(v0, v0.pendingRequests))
    {
      hide Valid, Value, NodeOk, RequestedSome, UpOuts, Sends;
      Mirror();
      AllThere();
      var todo := pendingRequests;
      ghost var all := pendingRequests;
      assert all - todo == {};
      SendsNothing(outbox);
      UpStart(v0);
      while todo != {}
        invariant todo <= all && Valid() && tokenPrivate == old(tokenPrivate) && Repr == old(Repr)
        invariant RequestedSome(v0, Value(), all - todo) && Sends(old(outbox), outbox, UpOuts(v0, all - todo))
        decreases |todo|
      {
        var id :| id in todo;
        RequestNext(v0, all - todo, id, old(outbox));
        assert all - (todo - {id}) == all - todo + {id};
        todo := todo - {id};
      }
      assert all - {} == v0.pendingRequests;
    }

    method RequestNext(ghost v0: Node, ghost done: set<TokenId>, id: TokenId, ghost start: seq<Sent>)
      requires Valid() && id in tokenPrivate && id !in done && NodeOk(v0) && id in v0.pendingRequests
      requires RequestedSome(v0, Value(), done) && Sends(start, outbox, UpOuts(v0, done))
      modifies this, Repr
      ensures Valid() && tokenPrivate == old(tokenPrivate) && Repr == old(Repr)
      ensures RequestedSome(v0, Value(), done + {id}) && Sends(start, outbox, UpOuts(v0, done + {id}))
    {
      hide Valid, Value, NodeOk, RequestedSome, UpOuts, Sends, ComeUp, Token.IncrementRequestNumber;
      Mirror();
      SomeThere(v0, Value(), done, id);
      RequestRound(v0, Value(), done, id);
      UpOutsGrow(v0, done, id);
      ghost var sent := outbox;
      ghost var more := ComeUp(C(v0), id, View(v0, id)).1;
      var num := NextNumber(id);
      Broadcast(Wire.RequestToken(id, num));
      SendsMore(start, sent, outbox, UpOuts(v0, done), more);
    }

    lemma AllThere()
      requires Valid() && started
      ensures forall t :: t in pendingRequests ==> t in tokenPrivate
    {
    }

    // -------------------------------------------------------------- one event after another

    method Handle(e: Event)
      requires Valid() && Fits(Value(), e)
      modifies this, Repr
      ensures Valid() && fresh(Repr - old(Repr)) && Fits(old(Value()), e)
      ensures var r := Handled(old(Value()), e); Value() == r.0 && Sends(old(outbox), outbox, r.1)
    {
      hide Valid, Value, Sends, NodeOk, N.HandleConnect, N.HandleNew, HandshakeIn, RequestTokenIn, GiveTokenIn, LockRequested, UnlockRequested, TokenIn, Castable, InRange;
      Mirror();
      SendsNothing(outbox);
      match e {
        case Connect(peer) => HandleConnect(peer);
        case New(id, props) => HandleNew(id, props);
        case Lock(id) => RequestLock(id);
        case Unlock(id) => RequestUnlock(id);
        case Write(id, props) => SetToken(id, props);
        case HandshakePacket => PacketClusterHandshake();
        case RequestPacket(id, from, num) => PacketRequestToken(id, from, num);
        case TokenPacket(id, data) => PacketGiveToken(id, data);
      }
    }

    /** Whatever events come, in whatever order: the object goes through the states of module Node and sends its packets. */
    method Run(events: seq<Event>)
      requires Valid() && After(Value(), events).Some?
      modifies this, Repr
      ensures Valid() && fresh(Repr - old(Repr))
      ensures After(old(Value()), events) == Some(Value()) && SentBy(old(Value()), events, old(outbox), outbox)
    {
      hide Valid, Value, Sends, Fits, Handled;
      ghost var v0 := Value();
      for k := 0 to |events|
        invariant Valid() && fresh(Repr - old(Repr))
        invariant After(v0, events[..k]) == Some(Value()) && SentBy(v0, events[..k], old(outbox), outbox)
      {
        AfterPrefix(v0, events, k + 1);
        AfterOne(v0, events, k);
        ghost var mid := outbox;
        Handle(events[k]);
        SentOne(v0, events, k, old(outbox), mid, outbox);
      }
      assert events[..|events|] == events;
    }
  }
}
