/** What a declaration does in a cluster: the record that is made, and whether the system token is asked for. */
module Creation {
  import opened Basics
  import opened Properties
  import opened Token
  import opened Slot
  import opened Node
  import opened Cluster
  import opened Handlers

  /** A new record: nothing asked, nothing served, nobody queued. */
  predicate Blank(p: Priv, n: nat) {
    && |p.ln| == |p.rn| == n && p.queue == [] && !p.locked && forall x: nat :: x < n ==> p.ln[x] == p.rn[x] == 0
  }

  /** Of a started node that has not heard of t: the new record is created if and only if t is on the node's list, or the
      node owns the system token and so creates t. Then nothing is sent or asked for. Otherwise the system token is. */
  lemma NewHere(s: State, i: NodeId, t: TokenId, props: Props)
    requires Shape(s) && Enabled(s, NewMonitor(i, t, props)) && s.nodes[i].started && t !in s.nodes[i].pub && t !in s.nodes[i].priv
    ensures var v := s.nodes[i];
      var (w, outs) := React(s, NewMonitor(i, t, props));
      && t in w.priv && Blank(w.priv[t], s.n) && w.pub == v.pub[t := props]
      && (w.priv[t].owned <==> t !in v.monitors && System in v.priv && v.priv[System].owned)
      && (w.priv[t].created <==> t in v.monitors || w.priv[t].owned)
      && w.monitors == (if w.priv[t].owned then v.monitors + {t} else v.monitors)
      && (w.priv[t].created ==> w.priv == v.priv[t := w.priv[t]] && w.pendingRequests == v.pendingRequests && outs == {})
      && (!w.priv[t].created ==> w.pendingRequests == v.pendingRequests + {System} && AsksSystem(v, w, t, outs))
      && w == v.(priv := w.priv, pub := w.pub, monitors := w.monitors, pendingRequests := w.pendingRequests)
  {
    hide NodeOk, AskFor, HandleNew, NewPriv, Asked, AsksSystem, Blank;
    var v := s.nodes[i];
    var v1 := v.(pub := v.pub[t := props]);
    NewMeans(v, t, props);
    Blanks(v.n);
    AskedHere(v, v1, t, NewPriv(v.n, false, false));
  }

  /** The system token is asked for with the next number, once of every peer, if it can be asked for and has not been. */
  predicate AsksSystem(v: Node, w: Node, t: TokenId, outs: set<Out>)
    requires t in w.priv
  {
    if System in v.pendingRequests || !v.startedCluster || System !in v.priv || |v.priv[System].rn| <= v.id then
      outs == {} && w.priv == v.priv[t := w.priv[t]]
    else
      var p := v.priv[System];
      var num := if p.rn[v.id] == U32_MAX then 0 else p.rn[v.id] + 1;
      && outs == (set j | j in v.peers :: Out(j, Request(System, num)))
      && w.priv == v.priv[t := w.priv[t]][System := p.(rn := p.rn[v.id := num])]
  }

  lemma AskedHere(v: Node, v1: Node, t: TokenId, p: Priv)
    requires NodeOk(v) && t !in v.priv && t.Monitor? && v1 == v.(pub := v1.pub) && NodeOk(Record(v1, t, p))
    ensures var (w, outs) := Asked(Record(v1, t, p), System);
      && t in w.priv && w.priv[t] == p && w.pendingRequests == v.pendingRequests + {System} && AsksSystem(v, w, t, outs)
      && w == v.(priv := w.priv, pub := v1.pub, pendingRequests := w.pendingRequests)
  {
    hide NodeOk, Asked;
    AskedMeans(Record(v1, t, p), System);
    var (w, outs) := Asked(Record(v1, t, p), System);
    if System in v.pendingRequests {
      assert v.pendingRequests + {System} == v.pendingRequests;
    } else if v.startedCluster && System in v.priv {
      RowOf(v, System);
      assert v.priv[System].rn[v.id := Succ32(v.priv[System].rn[v.id])] == w.priv[System].rn;
    }
  }

  lemma RowOf(v: Node, t: TokenId)
    requires NodeOk(v) && t in v.priv
    ensures |v.priv[t].rn| == v.n && v.id < v.n
  {
  }

  /** Before the node has started: node 0 creates what it declares, the others will ask for the system token. */
  lemma NewEarly(s: State, i: NodeId, t: TokenId, props: Props)
    requires Shape(s) && Enabled(s, NewMonitor(i, t, props)) && !s.nodes[i].started && t !in s.nodes[i].pub && t !in s.nodes[i].priv
    ensures var v := s.nodes[i];
      var (w, outs) := React(s, NewMonitor(i, t, props));
      && t in w.priv && Blank(w.priv[t], s.n) && w.pub == v.pub[t := props]
      && (w.priv[t].created <==> i == 0) && (w.priv[t].owned <==> i == 0)
      && (i == 0 ==> w.priv == v.priv[t := w.priv[t]] && w.pendingRequests == v.pendingRequests && outs == {})
      && (i != 0 ==> w.pendingRequests == v.pendingRequests + {System} && AsksSystem(v, w, t, outs))
      && w == v.(priv := w.priv, pub := w.pub, pendingRequests := w.pendingRequests)
  {
    hide NodeOk, AskFor, HandleNew, NewPriv, Asked, AsksSystem, Blank;
    var v := s.nodes[i];
    NewMeans(v, t, props);
    Blanks(v.n);
    AskedHere(v, v.(pub := v.pub[t := props]), t, NewPriv(v.n, false, false));
  }

  /** A monitor the node knows already: nothing, or only that it is declared now. */
  lemma NewAgain(s: State, i: NodeId, t: TokenId, props: Props)
    requires Shape(s) && Enabled(s, NewMonitor(i, t, props)) && (t in s.nodes[i].pub || t in s.nodes[i].priv)
    ensures var v := s.nodes[i];
      React(s, NewMonitor(i, t, props)) == (if t in v.pub then v else v.(pub := v.pub[t := props]), {})
  {
    hide NodeOk, HandleNew;
    NewMeans(s.nodes[i], t, props);
  }

  /** A cluster of one is up from the start and creates what it declares, and a lock is granted at once. A node of a larger
      one has not started. */
  lemma AloneOrNot(n: nat, id: NodeId, t: TokenId, props: Props)
    requires id < n && t.Monitor? && t != System
    ensures var v := NewNode(n, id);
      && NodeOk(v) && v.peers == {} && v.pub == map[] && v.pendingRequests == {} == v.pendingGrants
      && if n > 1 then !v.started && !v.startedCluster && v.priv == map[]
         else
           var w := HandleNew(v, t, props).0;
           && v.started && v.startedCluster && System in v.priv && v.priv[System].created && v.priv[System].owned && !v.priv[System].locked
           && NodeOk(w) && t in LockRequested(w, t).0.priv && LockRequested(w, t).0.priv[t].locked
  {
  }

  lemma Blanks(n: nat)
    ensures forall b, b' :: Blank(NewPriv(n, b, b'), n) && NewPriv(n, b, b').created == b && NewPriv(n, b, b').owned == b'
  {
  }
}
