/** What holds of a user monitor in every run, also when nodes lock monitors they know nothing of: request numbers are
    bracketed and the queue is valid wherever the token is. */
module Brackets {
  import opened Basics
  import opened Properties
  import opened Token
  import opened Slot
  import opened World
  import opened UserEvents
  import opened Refinement

  /** Each node's own latest request number. */
  function Nums(k: World): (r: seq<nat>)
    requires WellFormed(k)
    ensures |r| == k.n
  {
    seq(k.n, i requires 0 <= i < k.n => Row(k.slots[i], k.n)[i])
  }

  /** A node waits when its request is out and the process behind it is still blocked. */
  function Waits(k: World): (r: seq<bool>)
    requires WellFormed(k)
    ensures |r| == k.n
  {
    seq(k.n, i requires 0 <= i < k.n => k.slots[i].pendReq && k.slots[i].pendGrant)
  }

  /** LN and Q of a token at (or on its way to) h agree with what the nodes have asked for. */
  ghost predicate Fit(nums: seq<nat>, waits: seq<bool>, h: NodeId, ln: seq<nat>, q: seq<NodeId>)
    requires |nums| == |waits|
  {
    && |ln| == |nums| && h < |nums|
    && (forall x: nat :: x < |nums| ==> ln[x] <= nums[x] <= ln[x] + 1)
    && (forall x: nat :: x < |nums| && x != h && nums[x] != ln[x] ==> waits[x])
    && NoDup(q) && h !in q && (forall x: nat :: x in q ==> x < |nums| && nums[x] == ln[x] + 1)
  }

  ghost predicate Bracketed(k: World)
    requires WellFormed(k)
  {
    && (forall i: nat, j: nat :: i < k.n && j < k.n ==> Row(k.slots[j], k.n)[i] <= Nums(k)[i])
    && (forall p :: p in k.net && p.msg.Request? ==> p.src != p.dst && 1 <= p.msg.num <= Nums(k)[p.src])
  }

  /** What every slot keeps; before the token is minted nobody has it, and nobody has asked twice. */
  ghost predicate SlotW(s: Slot, n: nat, up: bool, minted: bool) {
    && (s.pendReq ==> up && s.priv.Some?)
    && (s.pendGrant ==> s.priv.Some? && s.pub.Some?)
    && (s.priv.Some? && (s.priv.value.locked || (s.priv.value.owned && up)) ==> !s.pendGrant)
    && (!minted && s.priv.Some? ==> s.priv.value.ln == seq(n, _ => 0) && s.priv.value.queue == [])
  }

  ghost predicate Early(k: World)
    requires WellFormed(k)
  {
    !k.minted ==> forall i: nat :: i < k.n ==> Nums(k)[i] == 0 || (Nums(k)[i] == 1 && Waits(k)[i])
  }

  /** A token that is held: in use, or idle with nobody queued and its owner's own request served. */
  ghost predicate HeldOk(k: World, i: NodeId)
    requires WellFormed(k) && i < k.n && Holds(k.slots[i])
  {
    var p := k.slots[i].priv.value;
    && Fit(Nums(k), Waits(k), i, p.ln, p.queue)
    && (!p.locked ==> p.queue == [] && Nums(k)[i] == p.ln[i])
  }

  /** A token in flight: its addressee still wants it and still waits. */
  ghost predicate FlightOk(k: World, p: Packet)
    requires WellFormed(k) && p in k.net && p.msg.Give?
  {
    var d := p.msg.data;
    && Fit(Nums(k), Waits(k), p.dst, d.ln, d.queue)
    && Nums(k)[p.dst] == d.ln[p.dst] as int + 1 && Waits(k)[p.dst]
  }

  ghost predicate WInv(k: World) {
    && Single(k) && Bracketed(k) && Early(k)
    && (forall i: nat :: i < k.n ==> SlotW(k.slots[i], k.n, k.up[i], k.minted))
    && (forall i: nat :: i < k.n && Holds(k.slots[i]) ==> HeldOk(k, i))
    && (forall p :: p in k.net && p.msg.Give? ==> FlightOk(k, p))
  }

  // ---------------------------------------------------------------- numbers after a step

  lemma OutIn(i: NodeId, stamp: nat, outs: set<Out>, p: Packet)
    requires p in Stamped(i, stamp, outs)
    ensures Out(p.dst, p.msg) in outs && p.src == i && p.stamp == stamp
  {
  }

  /** A node only learns of requests that were made, and only makes its own. */
  lemma BracketAfter(k: World, i: NodeId, s: Slot, used: set<Packet>, stamp: nat, outs: set<Out>)
    requires WellFormed(k) && Bracketed(k) && i < k.n && WellFormed(Apply(k, i, s, used, stamp, outs))
    requires Row(s, k.n)[i] >= Nums(k)[i] && forall j: nat :: j < k.n && j != i ==> Row(s, k.n)[j] <= Nums(k)[j]
    requires forall o :: o in outs && o.msg.Request? ==> o.dst != i && 1 <= o.msg.num <= Row(s, k.n)[i]
    ensures Bracketed(Apply(k, i, s, used, stamp, outs))
  {
    var k' := Apply(k, i, s, used, stamp, outs);
    NumsMoved(k, i, s, used, stamp, outs, k.minted);
    Unminted(k, i, s, used, stamp, outs);
    forall p | p in k'.net && p.msg.Request?
      ensures p.src != p.dst && 1 <= p.msg.num <= Nums(k')[p.src]
    {
      if p in Stamped(i, stamp, outs) {
        OutIn(i, stamp, outs, p);
      }
    }
  }

  // ---------------------------------------------------------------- one step

  /** What a step may do to its node's own number: leave it, without giving up waiting, or make the next request. */
  predicate Asks(n0: nat, w0: bool, n1: nat, w1: bool) {
    n1 == n0 + 1 && !w0 && w1
  }

  predicate Keeps(n0: nat, w0: bool, n1: nat, w1: bool) {
    n1 == n0 && (w0 ==> w1)
  }

  lemma FitKept(nums: seq<nat>, waits: seq<bool>, i: NodeId, n1: nat, w1: bool, h: NodeId, ln: seq<nat>, q: seq<NodeId>)
    requires |nums| == |waits| && i < |nums| && Fit(nums, waits, h, ln, q)
    requires Keeps(nums[i], waits[i], n1, w1) || (Asks(nums[i], waits[i], n1, w1) && i != h)
    ensures Fit(nums[i := n1], waits[i := w1], h, ln, q)
  {
  }

  ghost predicate StaysFit(k: World, i: NodeId, s: Slot, minted: bool)
    requires WellFormed(k) && i < k.n
  {
    var n1 := Row(s, k.n)[i];
    var w1 := s.pendReq && s.pendGrant;
    && (Holds(s) || Keeps(Nums(k)[i], Waits(k)[i], n1, w1) || (Asks(Nums(k)[i], Waits(k)[i], n1, w1) && !Holds(k.slots[i])))
    && (!minted ==> n1 == 0 || (n1 == 1 && w1))
  }

  /** A step of node i keeps the invariant when what it leaves at i and sends out is in order. */
  lemma WStep(k: World, i: NodeId, s: Slot, used: set<Packet>, stamp: nat, outs: set<Out>, minted: bool)
    requires WInv(k) && i < k.n && (k.minted ==> minted)
    requires var k' := Apply(k, i, s, used, stamp, outs).(minted := minted); Single(k') && Bracketed(k')
    requires SlotW(s, k.n, k.up[i], minted) && StaysFit(k, i, s, minted)
    requires var k' := Apply(k, i, s, used, stamp, outs).(minted := minted);
      && (Holds(s) ==> HeldOk(k', i))
      && (forall p :: p in Stamped(i, stamp, outs) && p.msg.Give? ==> FlightOk(k', p))
    ensures WInv(Apply(k, i, s, used, stamp, outs).(minted := minted))
  {
    hide Fit, AtMostOne, HeldOk, FlightOk, Bracketed, StaysFit;
    var k' := Apply(k, i, s, used, stamp, outs).(minted := minted);
    forall x: nat | x < k.n && Holds(k'.slots[x])
      ensures HeldOk(k', x)
    {
      if x != i {
        HeldKept(k, i, s, used, stamp, outs, minted, x);
      }
    }
    forall p | p in k'.net && p.msg.Give?
      ensures FlightOk(k', p)
    {
      if p in k.net {
        FlightKept(k, i, s, used, stamp, outs, minted, p);
      }
    }
    EarlyAfter(k, i, s, used, stamp, outs, minted);
  }

  lemma EarlyAfter(k: World, i: NodeId, s: Slot, used: set<Packet>, stamp: nat, outs: set<Out>, minted: bool)
    requires WellFormed(k) && Early(k) && i < k.n && (k.minted ==> minted) && StaysFit(k, i, s, minted)
    requires WellFormed(Apply(k, i, s, used, stamp, outs).(minted := minted))
    ensures Early(Apply(k, i, s, used, stamp, outs).(minted := minted))
  {
    NumsMoved(k, i, s, used, stamp, outs, minted);
  }

  lemma HeldKept(k: World, i: NodeId, s: Slot, used: set<Packet>, stamp: nat, outs: set<Out>, minted: bool, x: NodeId)
    requires WInv(k) && i < k.n && x < k.n && x != i && Holds(k.slots[x]) && StaysFit(k, i, s, minted)
    requires Single(Apply(k, i, s, used, stamp, outs).(minted := minted))
    ensures HeldOk(Apply(k, i, s, used, stamp, outs).(minted := minted), x)
  {
    hide Fit, AtMostOne, Bracketed, FlightOk;
    var k' := Apply(k, i, s, used, stamp, outs).(minted := minted);
    NumsMoved(k, i, s, used, stamp, outs, minted);
    OneHolder(k', x, i);
    OneHolder(k, x, i);
    assert HeldOk(k, x);
    FitKept(Nums(k), Waits(k), i, Row(s, k.n)[i], s.pendReq && s.pendGrant, x, k.slots[x].priv.value.ln, k.slots[x].priv.value.queue);
  }

  lemma FlightKept(k: World, i: NodeId, s: Slot, used: set<Packet>, stamp: nat, outs: set<Out>, minted: bool, p: Packet)
    requires WInv(k) && i < k.n && p in k.net && p in Apply(k, i, s, used, stamp, outs).net && p.msg.Give? && StaysFit(k, i, s, minted)
    requires Single(Apply(k, i, s, used, stamp, outs).(minted := minted))
    ensures FlightOk(Apply(k, i, s, used, stamp, outs).(minted := minted), p)
  {
    hide Fit, AtMostOne, Bracketed, HeldOk;
    var k' := Apply(k, i, s, used, stamp, outs).(minted := minted);
    NumsMoved(k, i, s, used, stamp, outs, minted);
    HolderOrFlight(k', i, p);
    assert FlightOk(k, p);
    FitKept(Nums(k), Waits(k), i, Row(s, k.n)[i], s.pendReq && s.pendGrant, p.dst, p.msg.data.ln, p.msg.data.queue);
  }

  lemma NumsMoved(k: World, i: NodeId, s: Slot, used: set<Packet>, stamp: nat, outs: set<Out>, minted: bool)
    requires WellFormed(k) && i < k.n && WellFormed(Apply(k, i, s, used, stamp, outs).(minted := minted))
    ensures var k' := Apply(k, i, s, used, stamp, outs).(minted := minted);
      Nums(k') == Nums(k)[i := Row(s, k.n)[i]] && Waits(k') == Waits(k)[i := s.pendReq && s.pendGrant]
  {
  }

  lemma OneHolder(k: World, x: NodeId, y: NodeId)
    requires Single(k) && x < k.n && y < k.n && x != y && Holds(k.slots[x])
    ensures !Holds(k.slots[y])
  {
  }

  lemma HolderOrFlight(k: World, i: NodeId, p: Packet)
    requires Single(k) && i < k.n && p in k.net && p.msg.Give?
    ensures !Holds(k.slots[i])
  {
  }

  // ---------------------------------------------------------------- the events

  lemma Unminted(k: World, i: NodeId, s: Slot, used: set<Packet>, stamp: nat, outs: set<Out>)
    ensures i < |k.slots| ==> Apply(k, i, s, used, stamp, outs).(minted := k.minted) == Apply(k, i, s, used, stamp, outs)
  {
  }

  /** The node's own part after a step, from what the step did to its slot. */
  lemma HeldStays(k: World, i: NodeId, s: Slot, used: set<Packet>, stamp: nat, outs: set<Out>, minted: bool)
    requires WInv(k) && i < k.n && Holds(k.slots[i]) && Holds(s) && WellFormed(Apply(k, i, s, used, stamp, outs).(minted := minted))
    requires Row(s, k.n)[i] == Nums(k)[i]
    requires var p := k.slots[i].priv.value;
      var p' := s.priv.value;
      p'.ln == p.ln && p'.queue == p.queue && (!p'.locked ==> !p.locked)
    ensures HeldOk(Apply(k, i, s, used, stamp, outs).(minted := minted), i)
  {
    NumsMoved(k, i, s, used, stamp, outs, minted);
    assert HeldOk(k, i);
  }

  lemma NoGive(i: NodeId, stamp: nat, outs: set<Out>)
    requires forall o :: o in outs ==> !o.msg.Give?
    ensures forall p :: p in Stamped(i, stamp, outs) ==> !p.msg.Give?
  {
    forall p | p in Stamped(i, stamp, outs)
      ensures !p.msg.Give?
    {
      OutIn(i, stamp, outs, p);
    }
  }

  /** A step that sends no token and keeps what it holds. */
  lemma WQuiet(k: World, i: NodeId, s: Slot, used: set<Packet>, stamp: nat, outs: set<Out>)
    requires WInv(k) && i < k.n && Single(Apply(k, i, s, used, stamp, outs)) && Bracketed(Apply(k, i, s, used, stamp, outs))
    requires SlotW(s, k.n, k.up[i], k.minted) && StaysFit(k, i, s, k.minted)
    requires (forall o :: o in outs ==> !o.msg.Give?) && (Holds(s) ==> Holds(k.slots[i]))
    requires Holds(s) ==>
               var p := k.slots[i].priv.value;
               var p' := s.priv.value;
               Row(s, k.n)[i] == Nums(k)[i] && p'.ln == p.ln && p'.queue == p.queue && (!p'.locked ==> !p.locked)
    ensures WInv(Apply(k, i, s, used, stamp, outs))
  {
    hide Fit, HeldOk, FlightOk, Bracketed, StaysFit, WInv, AtMostOne;
    Unminted(k, i, s, used, stamp, outs);
    NoGive(i, stamp, outs);
    if Holds(s) {
      HeldStays(k, i, s, used, stamp, outs, k.minted);
    }
    WStep(k, i, s, used, stamp, outs, k.minted);
  }

  lemma WParts(k: World, i: NodeId)
    requires WInv(k) && i < k.n
    ensures SlotW(k.slots[i], k.n, k.up[i], k.minted) && Bracketed(k) && Single(k)
    ensures !k.minted ==> Nums(k)[i] == 0 || (Nums(k)[i] == 1 && Waits(k)[i])
    ensures Nums(k)[i] == Row(k.slots[i], k.n)[i]
    ensures forall j: nat :: j < k.n ==> Row(k.slots[i], k.n)[j] <= Nums(k)[j]
    ensures !k.minted ==> !Holds(k.slots[i])
  {
  }

  lemma WLock(k: World, i: NodeId, stamp: nat)
    requires WInv(k) && Small(k) && i < k.n
    requires var r := RequestLock(k.C(i), k.t, k.slots[i]); Single(Apply(k, i, r.0, {}, stamp, r.1))
    ensures var r := RequestLock(k.C(i), k.t, k.slots[i]); WInv(Apply(k, i, r.0, {}, stamp, r.1))
  {
    hide WInv, Bracketed, AtMostOne;
    WParts(k, i);
    var (s, outs) := RequestLock(k.C(i), k.t, k.slots[i]);
    WaitsAt(k, i);
    BracketAfter(k, i, s, {}, stamp, outs);
    WQuiet(k, i, s, {}, stamp, outs);
  }

  lemma WaitsAt(k: World, i: NodeId)
    requires WellFormed(k) && i < k.n
    ensures Waits(k)[i] == (k.slots[i].pendReq && k.slots[i].pendGrant)
  {
  }

  /** What release does to a token that fits: it goes on fitting, at home or on its way to the head of the queue. */
  lemma ReleasedFits(nums: seq<nat>, waits: seq<bool>, p: Priv, h: NodeId, n: nat)
    requires |nums| == |waits| == n && p.Sized(n) && h < n && Fit(nums, waits, h, p.ln, p.queue)
    requires (forall j: nat :: j < n ==> p.rn[j] <= nums[j] < U32_MAX) && p.rn[h] == nums[h]
    ensures var r := Release(p, h);
      && r.Sized(n) && r.rn == p.rn && Fit(nums, waits, h, r.ln, r.queue) && nums[h] == r.ln[h]
      && (r.queue != [] ==> var x := r.queue[0]; x < n && x != h && Fit(nums, waits, x, r.ln, r.queue[1..]) && nums[x] == r.ln[x] as int + 1 && waits[x])
  {
    hide Release;
    var r := Release(p, h);
    ReleaseFrame(p, h, n);
    ReleaseNoDup(p, h, n);
    forall x: nat | x in r.queue
      ensures x < n && x != h && nums[x] == r.ln[x] as int + 1
    {
      ReleaseQueue(p, h, n, x);
    }
    if r.queue != [] {
      FrontFits(nums, waits, r.ln, r.queue, h);
    }
  }

  /** Once nobody holds anything, the token may go to the front of the queue. */
  lemma FrontFits(nums: seq<nat>, waits: seq<bool>, ln: seq<nat>, q: seq<NodeId>, h: NodeId)
    requires |nums| == |waits| && Fit(nums, waits, h, ln, q) && nums[h] == ln[h] && q != []
    ensures var x := q[0];
      x < |nums| && x != h && Fit(nums, waits, x, ln, q[1..]) && nums[x] == ln[x] as int + 1 && waits[x]
  {
    assert q[0] in q;
    assert forall x: nat :: x in q[1..] ==> x in q;
    assert NoDup(q[1..]) && q[0] !in q[1..];
  }

  lemma WUnlock(k: World, i: NodeId, stamp: nat)
    requires WInv(k) && Small(k) && i < k.n
    requires var r := RequestUnlock(k.C(i), k.t, k.slots[i]); Single(Apply(k, i, r.0, {}, stamp, r.1))
    ensures var r := RequestUnlock(k.C(i), k.t, k.slots[i]); WInv(Apply(k, i, r.0, {}, stamp, r.1))
  {
    hide WInv, Bracketed, AtMostOne, Release, Fit;
    WParts(k, i);
    var s0 := k.slots[i];
    var (s, outs) := RequestUnlock(k.C(i), k.t, s0);
    if s0.priv.None? || !s0.priv.value.locked {
      assert Apply(k, i, s, {}, stamp, outs) == k;
    } else {
      var p := s0.priv.value.(locked := false);
      HeldFits(k, i);
      SmallNums(k);
      ReleasedFits(Nums(k), Waits(k), p, i, k.n);
      PassedOn(k, i, s0.(priv := Some(p)), {}, stamp);
    }
  }

  lemma HeldFits(k: World, i: NodeId)
    requires WInv(k) && i < k.n && Holds(k.slots[i])
    ensures k.slots[i].priv.value.Sized(k.n) && Fit(Nums(k), Waits(k), i, k.slots[i].priv.value.ln, k.slots[i].priv.value.queue)
    ensures k.slots[i].priv.value.rn[i] == Nums(k)[i]
    ensures forall j: nat :: j < k.n ==> k.slots[i].priv.value.rn[j] <= Nums(k)[j]
  {
    assert HeldOk(k, i);
    assert Row(k.slots[i], k.n) == k.slots[i].priv.value.rn;
  }

  lemma SmallNums(k: World)
    requires Small(k)
    ensures forall j: nat :: j < k.n ==> Nums(k)[j] < U32_MAX
  {
  }

  /** Leaving the critical section, with the token passed on when somebody waits. */
  lemma PassedOn(k: World, i: NodeId, s1: Slot, mons: set<TokenId>, stamp: nat)
    requires WInv(k) && i < k.n && Holds(k.slots[i]) && k.slots[i].priv.value.locked
    requires s1 == k.slots[i].(priv := Some(k.slots[i].priv.value.(locked := false))) && SlotOk(k.C(i), s1)
    requires var r := Release(s1.priv.value, i);
      && r.Sized(k.n) && r.rn == s1.priv.value.rn && Fit(Nums(k), Waits(k), i, r.ln, r.queue) && Nums(k)[i] == r.ln[i]
      && (r.queue != [] ==> var x := r.queue[0];
           x < k.n && x != i && Fit(Nums(k), Waits(k), x, r.ln, r.queue[1..]) && Nums(k)[x] == r.ln[x] as int + 1 && Waits(k)[x])
    requires var r := ReleaseAndPass(k.C(i), k.t, s1, mons); Single(Apply(k, i, r.0, {}, stamp, r.1))
    ensures var r := ReleaseAndPass(k.C(i), k.t, s1, mons); WInv(Apply(k, i, r.0, {}, stamp, r.1))
  {
    hide WInv, Bracketed, AtMostOne, Release, Fit, Nums, Waits;
    WParts(k, i);
    var (s, outs) := ReleaseAndPass(k.C(i), k.t, s1, mons);
    var r := Release(s1.priv.value, i);
    WaitsAt(k, i);
    ReleaseFrame(s1.priv.value, i, k.n);
    assert Row(s, k.n) == Row(k.slots[i], k.n);
    BracketAfter(k, i, s, {}, stamp, outs);
    NumsMoved(k, i, s, {}, stamp, outs, k.minted);
    Unminted(k, i, s, {}, stamp, outs);
    assert Nums(k)[i := Nums(k)[i]] == Nums(k) && Waits(k)[i := Waits(k)[i]] == Waits(k);
    forall p | p in Stamped(i, stamp, outs) && p.msg.Give?
      ensures FlightOk(Apply(k, i, s, {}, stamp, outs), p)
    {
      OutIn(i, stamp, outs, p);
    }
    WStep(k, i, s, {}, stamp, outs, k.minted);
  }

  /** A request arrives. */
  lemma WRequest(k: World, p: Packet, stamp: nat)
    requires WInv(k) && Small(k) && p in k.net && p.msg.Request?
    requires var r := GetRequest(k.C(p.dst), k.t, k.slots[p.dst], p.src, p.msg.num, {}); Single(Apply(k, p.dst, r.0, {p}, stamp, r.1))
    ensures var r := GetRequest(k.C(p.dst), k.t, k.slots[p.dst], p.src, p.msg.num, {}); WInv(Apply(k, p.dst, r.0, {p}, stamp, r.1))
  {
    hide WInv, AtMostOne, Fit;
    WParts(k, p.dst);
    var i := p.dst;
    var s0 := k.slots[i];
    var h := Heard(k.C(i), s0, p.src, p.msg.num);
    var (s, outs) := GetRequest(k.C(i), k.t, s0, p.src, p.msg.num, {});
    WaitsAt(k, i);
    HeardRow(k.C(i), s0, p.src, p.msg.num);
    assert Row(s, k.n) == Row(h, k.n);
    BracketAfter(k, i, s, {p}, stamp, outs);
    if outs == {} {
      WQuiet(k, i, s, {p}, stamp, outs);
    } else {
      Answered(k, p, s, outs, stamp);
    }
  }

  /** An idle owner sends the token at once, with an empty queue. */
  lemma Answered(k: World, p: Packet, s: Slot, outs: set<Out>, stamp: nat)
    requires WInv(k) && Small(k) && p in k.net && p.msg.Request? && outs != {}
    requires (s, outs) == GetRequest(k.C(p.dst), k.t, k.slots[p.dst], p.src, p.msg.num, {})
    requires Single(Apply(k, p.dst, s, {p}, stamp, outs)) && Bracketed(Apply(k, p.dst, s, {p}, stamp, outs))
    ensures WInv(Apply(k, p.dst, s, {p}, stamp, outs))
  {
    hide WInv, AtMostOne, Fit, Bracketed, Small, WellFormed, HeldOk, StaysFit, Nums, Waits, Row;
    InRangeW(k, p);
    WParts(k, p.dst);
    var i := p.dst;
    AnswerIs(k, p, s, outs);
    NumsMoved(k, i, s, {p}, stamp, outs, k.minted);
    Unminted(k, i, s, {p}, stamp, outs);
    var k' := Apply(k, i, s, {p}, stamp, outs);
    assert Nums(k)[i := Nums(k)[i]] == Nums(k) && Waits(k)[i := Waits(k)[i]] == Waits(k);
    forall g | g in Stamped(i, stamp, outs) && g.msg.Give?
      ensures FlightOk(k', g)
    {
      OutIn(i, stamp, outs, g);
    }
    WStep(k, i, s, {p}, stamp, outs, k.minted);
  }

  lemma InRangeW(k: World, p: Packet)
    requires WInv(k) && p in k.net
    ensures WellFormed(k) && p.src < k.n && p.dst < k.n && SlotOk(k.C(p.dst), k.slots[p.dst])
  {
  }

  /** What an idle owner answers with: the token fits where it is sent. */
  lemma AnswerIs(k: World, p: Packet, s: Slot, outs: set<Out>)
    requires WInv(k) && Small(k) && p in k.net && p.msg.Request? && outs != {}
    requires WellFormed(k) && p.dst < k.n && (s, outs) == GetRequest(k.C(p.dst), k.t, k.slots[p.dst], p.src, p.msg.num, {})
    ensures !Holds(s) && SlotW(s, k.n, k.up[p.dst], k.minted) && StaysFit(k, p.dst, s, k.minted)
    ensures Row(s, k.n)[p.dst] == Nums(k)[p.dst] && (s.pendReq && s.pendGrant) == Waits(k)[p.dst]
    ensures forall o :: o in outs ==> o.msg.Give? && o.dst < k.n && Fit(Nums(k), Waits(k), o.dst, o.msg.data.ln, o.msg.data.queue)
    ensures forall o :: o in outs ==> Nums(k)[o.dst] == o.msg.data.ln[o.dst] as int + 1 && Waits(k)[o.dst]
  {
    hide WInv, AtMostOne;
    WParts(k, p.dst);
    var i := p.dst;
    WaitsAt(k, i);
    HeldFits(k, i);
    IdleFits(k, i);
    SmallNums(k);
    HeardRow(k.C(i), k.slots[i], p.src, p.msg.num);
  }

  lemma IdleFits(k: World, i: NodeId)
    requires WInv(k) && i < k.n && Holds(k.slots[i]) && !k.slots[i].priv.value.locked
    ensures k.slots[i].priv.value.queue == [] && Nums(k)[i] == k.slots[i].priv.value.ln[i]
  {
    assert HeldOk(k, i);
  }

  /** The token arrives: its addressee has a record and does not own it, and enters its critical section at once. */
  lemma WGive(k: World, p: Packet, stamp: nat)
    requires WInv(k) && p in k.net && p.msg.Give?
    requires Single(Apply(k, p.dst, GetGive(k.C(p.dst), k.slots[p.dst], p.msg.data), {p}, stamp, {}))
    ensures Accepts(k.slots[p.dst]) && k.slots[p.dst].pub.Some?
    ensures WInv(Apply(k, p.dst, GetGive(k.C(p.dst), k.slots[p.dst], p.msg.data), {p}, stamp, {}))
  {
    hide WInv, AtMostOne, Fit;
    InRangeW(k, p);
    WParts(k, p.dst);
    var i := p.dst;
    var s := GetGive(k.C(i), k.slots[i], p.msg.data);
    WaitsAt(k, i);
    FlightFits(k, p);
    assert Row(s, k.n) == Row(k.slots[i], k.n);
    BracketAfter(k, i, s, {p}, stamp, {});
    Unminted(k, i, s, {p}, stamp, {});
    NumsMoved(k, i, s, {p}, stamp, {}, k.minted);
    FitSelf(Nums(k), Waits(k), i, false, p.msg.data.ln, p.msg.data.queue);
    NoGive(i, stamp, {});
    assert Nums(k)[i := Nums(k)[i]] == Nums(k);
    WStep(k, i, s, {p}, stamp, {}, k.minted);
  }

  lemma FlightFits(k: World, p: Packet)
    requires WInv(k) && p in k.net && p.msg.Give?
    ensures Fit(Nums(k), Waits(k), p.dst, p.msg.data.ln, p.msg.data.queue) && Waits(k)[p.dst] && !Holds(k.slots[p.dst])
    ensures k.minted
  {
    assert FlightOk(k, p);
  }

  /** Whether the holder itself waits does not matter. */
  lemma FitSelf(nums: seq<nat>, waits: seq<bool>, h: NodeId, w: bool, ln: seq<nat>, q: seq<NodeId>)
    requires |nums| == |waits| && Fit(nums, waits, h, ln, q)
    ensures Fit(nums, waits[h := w], h, ln, q)
  {
  }

  /** A new token fits: everybody who has asked so far waits. */
  lemma FreshFits(k: World, i: NodeId, s: Slot, stamp: nat)
    requires WInv(k) && i < k.n && !k.minted && WellFormed(Apply(k, i, s, {}, stamp, {}).(minted := true))
    requires Holds(s) && s.priv.value.ln == seq(k.n, _ => 0) && s.priv.value.queue == [] && Row(s, k.n) == Row(k.slots[i], k.n)
    requires !s.priv.value.locked ==> !Waits(k)[i]
    ensures HeldOk(Apply(k, i, s, {}, stamp, {}).(minted := true), i)
  {
    NumsMoved(k, i, s, {}, stamp, {}, true);
    assert Nums(k)[i := Nums(k)[i]] == Nums(k);
  }

  /** The token is minted at i. */
  lemma WMint(k: World, i: NodeId, s: Slot, stamp: nat)
    requires WInv(k) && i < k.n && !k.minted && Single(Apply(k, i, s, {}, stamp, {}).(minted := true))
    requires Holds(s) && s.priv.value.ln == seq(k.n, _ => 0) && s.priv.value.queue == [] && Row(s, k.n) == Row(k.slots[i], k.n)
    requires SlotW(s, k.n, k.up[i], true) && (!s.priv.value.locked ==> !Waits(k)[i])
    ensures WInv(Apply(k, i, s, {}, stamp, {}).(minted := true))
  {
    hide WInv, AtMostOne, Fit, HeldOk;
    WParts(k, i);
    FreshFits(k, i, s, stamp);
    BracketAfter(k, i, s, {}, stamp, {});
    NoGive(i, stamp, {});
    BracketMinted(Apply(k, i, s, {}, stamp, {}));
    WStep(k, i, s, {}, stamp, {}, true);
  }

  lemma BracketMinted(k: World)
    requires WellFormed(k) && Bracketed(k)
    ensures Bracketed(k.(minted := true))
  {
    assert Nums(k.(minted := true)) == Nums(k);
  }

  /** The system token settles an entry. */
  lemma WAdopt(k: World, i: NodeId, stamp: nat)
    requires WInv(k) && Small(k) && i < k.n && k.up[i]
    requires var r := Adopt(k.C(i), k.t, k.slots[i], k.minted);
      Single(Apply(k, i, r.0, {}, stamp, r.1).(minted := k.minted || (!k.minted && Open(k.slots[i]))))
    ensures var r := Adopt(k.C(i), k.t, k.slots[i], k.minted);
      WInv(Apply(k, i, r.0, {}, stamp, r.1).(minted := k.minted || (!k.minted && Open(k.slots[i]))))
  {
    hide WInv, AtMostOne, Fit, Bracketed;
    WParts(k, i);
    var s0 := k.slots[i];
    var (s, outs) := Adopt(k.C(i), k.t, s0, k.minted);
    WaitsAt(k, i);
    Unminted(k, i, s, {}, stamp, outs);
    if s0.priv.None? || s0.priv.value.created {
      assert Apply(k, i, s, {}, stamp, outs) == k;
    } else if k.minted {
      BracketAfter(k, i, s, {}, stamp, outs);
      WQuiet(k, i, s, {}, stamp, outs);
    } else {
      WMint(k, i, s, stamp);
    }
  }

  /** A process declares the monitor. */
  lemma WDeclare(k: World, i: NodeId, props: Props, created: bool, owned: bool, stamp: nat)
    requires WInv(k) && i < k.n
    requires var first := k.slots[i].priv.None? && k.slots[i].pub.None?;
      && (owned && first ==> !k.minted)
      && Single(Apply(k, i, Declare(k.C(i), k.slots[i], props, created, owned), {}, stamp, {}).(minted := k.minted || (owned && first)))
    ensures var first := k.slots[i].priv.None? && k.slots[i].pub.None?;
      WInv(Apply(k, i, Declare(k.C(i), k.slots[i], props, created, owned), {}, stamp, {}).(minted := k.minted || (owned && first)))
  {
    hide WInv, AtMostOne, Fit, Bracketed;
    WParts(k, i);
    var s0 := k.slots[i];
    var s := Declare(k.C(i), s0, props, created, owned);
    WaitsAt(k, i);
    Unminted(k, i, s, {}, stamp, {});
    assert Row(s, k.n) == Row(s0, k.n);
    if owned && s0.priv.None? && s0.pub.None? {
      WMint(k, i, s, stamp);
    } else {
      BracketAfter(k, i, s, {}, stamp, {});
      WQuiet(k, i, s, {}, stamp, {});
    }
  }

  lemma WWrite(k: World, i: NodeId, props: Props, stamp: nat)
    requires WInv(k) && i < k.n && Single(Apply(k, i, k.slots[i].(pub := Some(props)), {}, stamp, {}))
    ensures WInv(Apply(k, i, k.slots[i].(pub := Some(props)), {}, stamp, {}))
  {
    hide WInv, AtMostOne, Fit, Bracketed;
    WParts(k, i);
    var s := k.slots[i].(pub := Some(props));
    WaitsAt(k, i);
    assert Row(s, k.n) == Row(k.slots[i], k.n);
    BracketAfter(k, i, s, {}, stamp, {});
    WQuiet(k, i, s, {}, stamp, {});
  }

  /** The last handshake arrives. */
  lemma WUp(k: World, i: NodeId, stamp: nat)
    requires WInv(k) && i < k.n && !k.up[i]
    requires var r := ComeUp(k.C(i).(up := true), k.t, k.slots[i]); Single(Apply(k.(up := k.up[i := true]), i, r.0, {}, stamp, r.1))
    ensures var r := ComeUp(k.C(i).(up := true), k.t, k.slots[i]); WInv(Apply(k.(up := k.up[i := true]), i, r.0, {}, stamp, r.1))
  {
    hide WInv, AtMostOne, Fit, Bracketed;
    WParts(k, i);
    var s0 := k.slots[i];
    var (s, outs) := ComeUp(k.C(i).(up := true), k.t, s0);
    WaitsAt(k, i);
    assert outs == {};
    var k1 := Apply(k, i, s, {}, stamp, outs);
    assert Apply(k.(up := k.up[i := true]), i, s, {}, stamp, outs) == k1.(up := k1.up[i := true]);
    SingleLowered(k1, i);
    BracketAfter(k, i, s, {}, stamp, outs);
    WQuiet(k, i, s, {}, stamp, outs);
    WRaise(Apply(k, i, s, {}, stamp, outs), i);
  }

  lemma SingleLowered(k: World, i: NodeId)
    requires i < |k.up| && Single(k.(up := k.up[i := true]))
    ensures Single(k)
  {
    var k' := k.(up := k.up[i := true]);
    assert forall x: nat :: x < k.n ==> SlotOk(k'.C(x), k'.slots[x]) == SlotOk(k.C(x), k.slots[x]);
  }

  lemma WRaise(k: World, i: NodeId)
    requires WInv(k) && i < k.n && SlotW(k.slots[i], k.n, true, k.minted) && Single(k.(up := k.up[i := true]))
    ensures WInv(k.(up := k.up[i := true]))
  {
    var k' := k.(up := k.up[i := true]);
    assert Nums(k') == Nums(k) && Waits(k') == Waits(k);
    forall x: nat | x < k.n && Holds(k'.slots[x])
      ensures HeldOk(k', x)
    {
      assert HeldOk(k, x);
    }
    forall p | p in k'.net && p.msg.Give?
      ensures FlightOk(k', p)
    {
      assert FlightOk(k, p);
    }
  }

  /** Every event keeps numbers and queue in order. */
  lemma WAfter(k: World, e: Ev, stamp: nat)
    requires WInv(k) && Small(k) && Possible(k, e) && Single(After(k, e, stamp))
    ensures WInv(After(k, e, stamp))
    ensures e.Receives? ==> Accepts(k.slots[e.p.dst]) && k.slots[e.p.dst].pub.Some?
  {
    hide WInv, AtMostOne, RequestLock, RequestUnlock, GetRequest, GetGive, Adopt, ComeUp, Declare;
    match e
    case Nothing => NothingHappens(k, stamp);
    case Locks(i) => { Plainly(k, e, stamp); WLock(k, i, stamp); }
    case Unlocks(i) => { Plainly(k, e, stamp); WUnlock(k, i, stamp); }
    case Writes(i, props) => { Plainly(k, e, stamp); WWrite(k, i, props, stamp); }
    case Declares(i, props, created, owned) => WDeclare(k, i, props, created, owned, stamp);
    case Hears(p) => { Plainly(k, e, stamp); WRequest(k, p, stamp); }
    case Receives(p) => { Plainly(k, e, stamp); WGive(k, p, stamp); }
    case Settles(i) => WAdopt(k, i, stamp);
    case Rises(i) => WUp(k, i, stamp);
  }
}
