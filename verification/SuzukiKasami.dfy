/** The broadcast token algorithm for one token, with the token in one place: the simple form that
    the slots and packets of a cluster refine. */
module SuzukiKasami {
  import opened Basics

  datatype Req = Req(src: NodeId, dst: NodeId, num: nat)

  /** Where the token is, with its LN and Q. At an owner it may be busy (inside the critical section). */
  datatype Place =
    | Nowhere
    | At(h: NodeId, ln: seq<nat>, q: seq<NodeId>, busy: bool)
    | To(h: NodeId, ln: seq<nat>, q: seq<NodeId>)

  /** rn[i] is node i's RN array; asking[i] says that i has an unanswered request out. */
  datatype Alg = Alg(n: nat, rn: seq<seq<nat>>, asking: seq<bool>, reqs: set<Req>, place: Place)

  ghost predicate Shaped(a: Alg) {
    && |a.rn| == |a.asking| == a.n
    && (forall i: nat :: i < a.n ==> |a.rn[i]| == a.n)
    && (forall r :: r in a.reqs ==> r.src < a.n && r.dst < a.n)
  }

  /** No node has heard of a request number that its sender has not reached. */
  ghost predicate Bracket(a: Alg)
    requires Shaped(a)
  {
    && (forall i: nat, j: nat :: i < a.n && j < a.n ==> a.rn[j][i] <= a.rn[i][i])
    && (forall r :: r in a.reqs ==> 1 <= r.num <= a.rn[r.src][r.src])
  }

  /** Every node has i's latest number, or the request that brings it is on its way. */
  ghost predicate Announced(a: Alg)
    requires Shaped(a)
  {
    forall i: nat, j: nat :: i < a.n && j < a.n && i != j ==>
      a.rn[j][i] == a.rn[i][i] || Req(i, j, a.rn[i][i]) in a.reqs
  }

  /** LN is exact up to one outstanding request, and Q holds outstanding requesters only, each once. */
  ghost predicate Accounts(a: Alg, ln: seq<nat>, q: seq<NodeId>)
    requires Shaped(a)
  {
    && |ln| == a.n
    && (forall i: nat :: i < a.n ==> ln[i] <= a.rn[i][i] <= ln[i] + 1)
    && (forall i: nat :: i < a.n && a.asking[i] ==> a.rn[i][i] == ln[i] + 1)
    && NoDup(q)
    && (forall x: nat :: x in q ==> x < a.n && a.asking[x])
  }

  ghost predicate PlaceOk(a: Alg)
    requires Shaped(a)
  {
    match a.place
    case Nowhere =>
      forall i: nat :: i < a.n ==> a.rn[i][i] == 0 && !a.asking[i]
    case At(h, ln, q, busy) =>
      && h < a.n && Accounts(a, ln, q)
      && !a.asking[h] && h !in q
      && (forall i: nat :: i < a.n && i != h && !a.asking[i] ==> a.rn[i][i] == ln[i])
      && (!busy ==> q == [] && forall j: nat :: j < a.n ==> a.rn[h][j] <= ln[j])
    case To(h, ln, q) =>
      && h < a.n && Accounts(a, ln, q)
      && a.asking[h] && h !in q
      && (forall i: nat :: i < a.n && !a.asking[i] ==> a.rn[i][i] == ln[i])
  }

  ghost predicate Inv(a: Alg) {
    Shaped(a) && Bracket(a) && Announced(a) && PlaceOk(a)
  }

  // ---------------------------------------------------------------- moves

  /** Node i asks for the token: next request number, broadcast to everyone else. */
  function Ask(a: Alg, i: NodeId): Alg
    requires i < |a.rn| && i < |a.rn[i]| && i < |a.asking|
  {
    var num := a.rn[i][i] + 1;
    a.(rn := a.rn[i := a.rn[i][i := num]],
       asking := a.asking[i := true],
       reqs := a.reqs + set j | j in Others(a.n, i) :: Req(i, j, num))
  }

  lemma AskKeeps(a: Alg, i: NodeId)
    requires Inv(a) && i < a.n && !a.asking[i] && !a.place.Nowhere?
    requires a.place.At? ==> a.place.h != i
    ensures Inv(Ask(a, i))
  {
    var b := Ask(a, i);
    AskNumbers(a, i);
    assert Accounts(b, b.place.ln, b.place.q);
  }

  lemma AskNumbers(a: Alg, i: NodeId)
    requires Inv(a) && i < a.n
    ensures var b := Ask(a, i);
      && Shaped(b) && Bracket(b) && Announced(b)
      && (forall x: nat :: x < a.n && x != i ==> b.rn[x] == a.rn[x])
      && b.rn[i] == a.rn[i][i := a.rn[i][i] + 1]
  {
    hide PlaceOk;
    AskRows(a, i);
    AskAnnounced(a, i);
  }

  lemma AskRows(a: Alg, i: NodeId)
    requires Shaped(a) && Bracket(a) && i < a.n
    ensures var b := Ask(a, i);
      && Shaped(b) && Bracket(b) && (forall x: nat :: x < a.n && x != i ==> b.rn[x] == a.rn[x])
      && b.rn[i] == a.rn[i][i := a.rn[i][i] + 1]
  {
  }

  lemma AskAnnounced(a: Alg, i: NodeId)
    requires Shaped(a) && Bracket(a) && Announced(a) && i < a.n
    ensures Shaped(Ask(a, i)) && Announced(Ask(a, i))
  {
    hide Bracket;
    AskRows(a, i);
    var b := Ask(a, i);
    var num := b.rn[i][i];
    assert forall j: nat :: j < a.n && j != i ==> j in Others(a.n, i) && Req(i, j, num) in b.reqs;
  }

  /** Node `r.dst` hears request r, which may have had a second copy in flight. */
  function Hear(a: Alg, r: Req, gone: bool): Alg
    requires r.dst < |a.rn| && r.src < |a.rn[r.dst]|
  {
    var was := a.rn[r.dst][r.src];
    a.(rn := a.rn[r.dst := a.rn[r.dst][r.src := if was < r.num then r.num else was]],
       reqs := if gone then a.reqs - {r} else a.reqs)
  }

  /** Hearing is safe anywhere but at an idle owner that learns something new. */
  lemma HearKeeps(a: Alg, r: Req, gone: bool)
    requires Inv(a) && r in a.reqs
    requires a.place.At? && a.place.h == r.dst && !a.place.busy ==> r.num <= a.place.ln[r.src]
    ensures Inv(Hear(a, r, gone))
  {
    hide Shaped, Bracket, Announced, PlaceOk, Hear;
    HearNumbers(a, r, gone);
    HearAnnounced(a, r, gone);
    HearPlace(a, r, gone);
  }

  lemma HearAnnounced(a: Alg, r: Req, gone: bool)
    requires Inv(a) && r in a.reqs
    ensures Shaped(Hear(a, r, gone)) && Announced(Hear(a, r, gone))
  {
    hide PlaceOk;
    var b := Hear(a, r, gone);
    HearNumbers(a, r, gone);
    forall i: nat, j: nat | i < a.n && j < a.n && i != j
      ensures b.rn[j][i] == b.rn[i][i] || Req(i, j, b.rn[i][i]) in b.reqs
    {
      if Req(i, j, a.rn[i][i]) in a.reqs {
        assert Req(i, j, a.rn[i][i]) == r || Req(i, j, a.rn[i][i]) in b.reqs;
      }
    }
  }

  lemma HearPlace(a: Alg, r: Req, gone: bool)
    requires Inv(a) && r in a.reqs
    requires a.place.At? && a.place.h == r.dst && !a.place.busy ==> r.num <= a.place.ln[r.src]
    ensures Shaped(Hear(a, r, gone)) && PlaceOk(Hear(a, r, gone))
  {
    hide Announced;
    var b := Hear(a, r, gone);
    HearNumbers(a, r, gone);
    if !a.place.Nowhere? {
      assert Accounts(b, b.place.ln, b.place.q);
    }
  }

  lemma HearNumbers(a: Alg, r: Req, gone: bool)
    requires Inv(a) && r in a.reqs
    ensures var b := Hear(a, r, gone);
      && Shaped(b) && Bracket(b)
      && (forall x: nat :: x < a.n ==> b.rn[x][x] == a.rn[x][x])
      && (forall x: nat, y: nat :: x < a.n && y < a.n && (x != r.dst || y != r.src) ==> b.rn[x][y] == a.rn[x][y])
      && b.rn[r.dst][r.src] == if a.rn[r.dst][r.src] < r.num then r.num else a.rn[r.dst][r.src]
  {
    hide Announced, PlaceOk;
    var b := Hear(a, r, gone);
    var was := a.rn[r.dst][r.src];
    assert b.rn[r.dst] == a.rn[r.dst][r.src := if was < r.num then r.num else was];
    assert forall x: nat :: x < a.n && x != r.dst ==> b.rn[x] == a.rn[x];
  }

  /** The owner enters its critical section. */
  function Enter(a: Alg): Alg
    requires a.place.At?
  {
    a.(place := a.place.(busy := true))
  }

  lemma EnterKeeps(a: Alg)
    requires Inv(a) && a.place.At?
    ensures Inv(Enter(a))
  {
    assert Accounts(Enter(a), a.place.ln, a.place.q);
  }

  /** What a release of the token by its owner may leave in LN and Q. */
  ghost predicate Released(a: Alg, ln: seq<nat>, q: seq<NodeId>)
    requires Shaped(a) && a.place.At? && a.place.h < a.n && |a.place.ln| == a.n
  {
    var h := a.place.h;
    && ln == a.place.ln[h := a.rn[h][h]]
    && a.place.q <= q && NoDup(q)
    && forall x: nat :: x in q <==> x in a.place.q || (x < a.n && a.rn[h][x] == ln[x] + 1)
  }

  /** The owner leaves: the token stays, idle, or goes to the head of the queue. */
  function Leave(a: Alg, ln: seq<nat>, q: seq<NodeId>): Alg
    requires a.place.At?
  {
    a.(place := if q == [] then At(a.place.h, ln, [], false) else To(q[0], ln, q[1..]))
  }

  lemma LeaveKeeps(a: Alg, ln: seq<nat>, q: seq<NodeId>)
    requires Inv(a) && a.place.At? && Released(a, ln, q)
    ensures Inv(Leave(a, ln, q))
  {
    hide Bracket, Announced;
    var b := Leave(a, ln, q);
    ReleasedAccounts(a, ln, q);
    LeaveRest(a, ln, q);
    if q == [] {
      assert Accounts(b, ln, []);
    } else {
      Fronted(q);
      assert Accounts(b, ln, q[1..]);
    }
  }

  lemma LeaveRest(a: Alg, ln: seq<nat>, q: seq<NodeId>)
    requires Shaped(a) && Bracket(a) && Announced(a) && a.place.At?
    ensures var b := Leave(a, ln, q); Shaped(b) && Bracket(b) && Announced(b)
  {
  }

  lemma Fronted(q: seq<NodeId>)
    requires NoDup(q) && q != []
    ensures q[0] in q && (forall x :: x in q[1..] ==> x in q) && NoDup(q[1..]) && q[0] !in q[1..]
  {
  }

  /** After a release LN is exact for everyone who is not asking, and everyone the owner has heard of is queued. */
  lemma ReleasedAccounts(a: Alg, ln: seq<nat>, q: seq<NodeId>)
    requires Inv(a) && a.place.At? && Released(a, ln, q)
    ensures Accounts(a, ln, q)
    ensures forall i: nat :: i < a.n && !a.asking[i] ==> a.rn[i][i] == ln[i]
    ensures a.place.h !in q
    ensures forall x: nat :: x < a.n && x !in q ==> a.rn[a.place.h][x] <= ln[x]
  {
    var h := a.place.h;
    forall x: nat | x in q
      ensures x < a.n && a.asking[x] && x != h
    {
      if x !in a.place.q {
        assert a.rn[h][x] <= a.rn[x][x];
        assert x != h;
      }
    }
    forall x: nat | x < a.n && x !in q
      ensures a.rn[h][x] <= ln[x]
    {
      assert a.rn[h][x] <= a.rn[x][x];
    }
  }

  /** The token arrives where it was sent; the receiver is at once inside its critical section. */
  function Arrive(a: Alg): Alg
    requires a.place.To? && a.place.h < |a.asking|
  {
    a.(place := At(a.place.h, a.place.ln, a.place.q, true), asking := a.asking[a.place.h := false])
  }

  lemma ArriveKeeps(a: Alg)
    requires Inv(a) && a.place.To?
    ensures Inv(Arrive(a))
  {
    var b := Arrive(a);
    assert Accounts(b, b.place.ln, b.place.q);
  }

  function Mint(a: Alg, i: NodeId): Alg {
    a.(place := At(i, seq(a.n, _ => 0), [], false))
  }

  lemma MintKeeps(a: Alg, i: NodeId)
    requires Inv(a) && a.place.Nowhere? && i < a.n
    ensures Inv(Mint(a, i))
  {
    var b := Mint(a, i);
    assert Accounts(b, b.place.ln, b.place.q);
    assert forall j: nat :: j < a.n ==> a.rn[i][j] <= a.rn[j][j];
  }
}
