/** What can happen to one user monitor, seen from its slots and packets alone. */
module UserEvents {
  import opened Basics
  import opened Properties
  import opened Slot
  import opened World

  datatype Ev =
    | Nothing
    | Locks(i: NodeId)
    | Unlocks(i: NodeId)
    | Writes(i: NodeId, props: Props)
    | Declares(i: NodeId, props: Props, created: bool, owned: bool)
    | Hears(p: Packet)
    | Receives(p: Packet)
    | Settles(i: NodeId)
    | Rises(i: NodeId)

  /** When each event can occur: a new record's flags agree with whether the monitor exists, and the system token, which
      settles records, finds its addressee up. */
  predicate Possible(k: World, e: Ev) {
    WellFormed(k) && k.t.Monitor?
    && match e
       case Nothing => true
       case Locks(i) => i < k.n
       case Unlocks(i) => i < k.n
       case Writes(i, _) => i < k.n && k.slots[i].priv.Some? && k.slots[i].priv.value.locked
       case Declares(i, _, created, owned) =>
         && i < k.n && (owned ==> created) && (created && !owned ==> k.minted)
         && (owned && First(k.slots[i]) ==> !k.minted)
       case Hears(p) => p in k.net && p.msg.Request?
       case Receives(p) => p in k.net && p.msg.Give?
       case Settles(i) => i < k.n && k.up[i]
       case Rises(i) => i < k.n && !k.up[i]
  }

  /** The node has no record of the monitor at all. */
  predicate First(s: Slot) {
    s.priv.None? && s.pub.None?
  }

  /** The record's creation is still open. */
  predicate Open(s: Slot) {
    s.priv.Some? && !s.priv.value.created
  }

  /** Where an event happens. */
  function At(e: Ev): NodeId {
    match e
    case Nothing => 0
    case Locks(i) => i
    case Unlocks(i) => i
    case Writes(i, _) => i
    case Declares(i, _, _, _) => i
    case Hears(p) => p.dst
    case Receives(p) => p.dst
    case Settles(i) => i
    case Rises(i) => i
  }

  /** The handler's effect on the node's slot, and what it sends. */
  function Effect(k: World, e: Ev): (Slot, set<Out>)
    requires Possible(k, e)
  {
    match e
    case Nothing => (k.slots[0], {})
    case Locks(i) => RequestLock(k.C(i), k.t, k.slots[i])
    case Unlocks(i) => RequestUnlock(k.C(i), k.t, k.slots[i])
    case Writes(i, props) => (k.slots[i].(pub := Some(props)), {})
    case Declares(i, props, created, owned) => (Declare(k.C(i), k.slots[i], props, created, owned), {})
    case Hears(p) => GetRequest(k.C(p.dst), k.t, k.slots[p.dst], p.src, p.msg.num, {})
    case Receives(p) => (GetGive(k.C(p.dst), k.slots[p.dst], p.msg.data), {})
    case Settles(i) => Adopt(k.C(i), k.t, k.slots[i], k.minted)
    case Rises(i) => ComeUp(k.C(i).(up := true), k.t, k.slots[i])
  }

  /** The packets an event consumes. */
  function Uses(e: Ev): set<Packet> {
    if e.Hears? || e.Receives? then {e.p} else {}
  }

  /** Does the event create the monitor? */
  predicate Creates(k: World, e: Ev)
    requires Possible(k, e)
  {
    match e
    case Declares(i, _, _, owned) => owned && First(k.slots[i])
    case Settles(i) => !k.minted && Open(k.slots[i])
    case _ => false
  }

  function After(k: World, e: Ev, stamp: nat): World
    requires Possible(k, e)
  {
    var (s, outs) := Effect(k, e);
    var k0 := if e.Rises? then k.(up := k.up[At(e) := true]) else k;
    Apply(k0, At(e), s, Uses(e), stamp, outs).(minted := k.minted || Creates(k, e))
  }

  lemma NothingHappens(k: World, stamp: nat)
    requires Possible(k, Nothing)
    ensures After(k, Nothing, stamp) == k
  {
    assert k.slots[0 := k.slots[0]] == k.slots;
    assert k.net - {} + Stamped(0, stamp, {}) == k.net;
  }

  /** An event that does not create the monitor changes one slot and the packets. */
  lemma Plainly(k: World, e: Ev, stamp: nat)
    requires Possible(k, e) && !e.Rises?
    ensures var (s, outs) := Effect(k, e);
      After(k, e, stamp) == Apply(k, At(e), s, Uses(e), stamp, outs).(minted := k.minted || Creates(k, e))
    ensures !Creates(k, e) ==> var (s, outs) := Effect(k, e); After(k, e, stamp) == Apply(k, At(e), s, Uses(e), stamp, outs)
  {
  }
}
