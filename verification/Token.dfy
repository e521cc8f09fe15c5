/** The token record of lib/token.cpp as a value: LN, RN and Q of the algorithm and the three flags. */
module Token {
  import opened Basics

  datatype Priv = Priv(
    ln: seq<U32>,
    rn: seq<U32>,
    queue: seq<NodeId>,
    created: bool,
    owned: bool,
    locked: bool)
  {
    predicate Sized(n: nat) {
      |ln| == n && |rn| == n && forall x: nat :: x in queue ==> x < n
    }
  }

  function NewPriv(n: nat, created: bool, owned: bool): (p: Priv)
    ensures p.Sized(n)
  {
    Priv(seq(n, _ => 0), seq(n, _ => 0), [], created, owned, false)
  }

  function IncrementRequestNumber(p: Priv, node: NodeId): Priv
    requires node < |p.rn|
  {
    p.(rn := p.rn[node := Succ32(p.rn[node])])
  }

  function UpdateRequestNumber(p: Priv, node: NodeId, request: U32): Priv
    requires node < |p.rn|
  {
    p.(rn := p.rn[node := Max32(request, p.rn[node])])
  }

  /** x is known to want the token: its request number is one above the number last served. */
  predicate Wants(p: Priv, x: NodeId)
    requires x < |p.ln| && x < |p.rn|
  {
    p.rn[x] == Succ32(p.ln[x])
  }

  /** The nodes below `to` that want the token and are not queued yet, in ascending order. */
  function Latecomers(p: Priv, to: nat): (q: seq<NodeId>)
    requires to <= |p.ln| && to <= |p.rn|
    ensures forall x: nat :: x in q <==> x < to && x !in p.queue && Wants(p, x)
    ensures Ascending(q)
  {
    if to == 0 then []
    else
      var q := Latecomers(p, to - 1);
      if Wants(p, to - 1) && to - 1 !in p.queue then
        assert forall a :: 0 <= a < |q| ==> q[a] in q;
        q + [to - 1]
      else q
  }

  predicate Ascending(q: seq<NodeId>) {
    forall a, b :: 0 <= a < b < |q| ==> q[a] < q[b]
  }

  /** Token release by `node`: its requests count as served, and every known requester is queued. */
  function Release(p: Priv, node: NodeId): Priv
    requires |p.ln| == |p.rn| && node < |p.ln|
  {
    var served := p.(ln := p.ln[node := p.rn[node]]);
    served.(queue := p.queue + Latecomers(served, |p.rn|))
  }

  /** Release does not look at the locked flag. */
  lemma ReleaseIgnoresLock(p: Priv, b: bool, node: NodeId)
    requires |p.ln| == |p.rn| && node < |p.ln|
    ensures Release(p.(locked := b), node) == Release(p, node).(locked := b)
  {
    var served := p.(ln := p.ln[node := p.rn[node]]);
    LatecomersIgnoreLock(served, b, |p.rn|);
  }

  lemma LatecomersIgnoreLock(p: Priv, b: bool, to: nat)
    requires to <= |p.ln| && to <= |p.rn|
    ensures Latecomers(p.(locked := b), to) == Latecomers(p, to)
  {
  }

  /** Release changes LN at the releasing node and extends the queue; nothing else. */
  lemma ReleaseFrame(p: Priv, node: NodeId, n: nat)
    requires p.Sized(n) && node < n
    ensures var r := Release(p, node);
      && r.Sized(n)
      && r == p.(ln := p.ln[node := p.rn[node]], queue := r.queue)
      && p.queue <= r.queue
      && node !in r.queue[|p.queue|..]
  {
    var r := Release(p, node);
    var served := p.(ln := p.ln[node := p.rn[node]]);
    assert r.queue[|p.queue|..] == Latecomers(served, n);
  }

  /** After release the queue holds the old queue and exactly the known requesters. */
  lemma ReleaseQueue(p: Priv, node: NodeId, n: nat, x: NodeId)
    requires p.Sized(n) && node < n
    ensures var r := Release(p, node);
      x in r.queue <==> x in p.queue || (x < n && r.rn[x] == Succ32(r.ln[x]))
  {
  }

  lemma ReleaseNoDup(p: Priv, node: NodeId, n: nat)
    requires p.Sized(n) && node < n && NoDup(p.queue)
    ensures NoDup(Release(p, node).queue)
  {
    var r := Release(p, node);
    var late := r.queue[|p.queue|..];
    assert late == Latecomers(p.(ln := p.ln[node := p.rn[node]]), n);
    forall a, b | 0 <= a < b < |r.queue|
      ensures r.queue[a] != r.queue[b]
    {
      if b >= |p.queue| {
        assert r.queue[b] == late[b - |p.queue|] && r.queue[b] in late;
        if a >= |p.queue| {
          assert r.queue[a] == late[a - |p.queue|];
        }
      }
    }
  }

  /** The nodes that release appends come in ascending order, and a second release changes nothing. */
  lemma ReleaseOrderAndIdempotence(p: Priv, node: NodeId, n: nat)
    requires p.Sized(n) && node < n
    ensures Ascending(Release(p, node).queue[|p.queue|..])
    ensures Release(Release(p, node), node) == Release(p, node)
  {
    var r := Release(p, node);
    var served := p.(ln := p.ln[node := p.rn[node]]);
    assert r.queue[|p.queue|..] == Latecomers(served, n);
    assert r.ln[node := r.rn[node]] == r.ln;
    NoneLeft(r, n);
    assert r.queue + [] == r.queue;
  }

  lemma NoneLeft(p: Priv, to: nat)
    requires to <= |p.ln| && to <= |p.rn|
    requires forall x: nat :: x < to && Wants(p, x) ==> x in p.queue
    ensures Latecomers(p, to) == []
  {
    if to > 0 {
      NoneLeft(p, to - 1);
    }
  }
}
