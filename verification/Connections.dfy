/** The TCP manager: one method per branch of runLoop, and runLoop over any events. */
module Connections {
  import opened Basics
  import opened Packets
  import opened Rounds
  import opened Receive
  import opened Clients

  /** One call of a client-state callback. */
  datatype Notice = Notice(id: nat, state: TcpClientState, error: nat)

  /** What was reported about a client, in order. */
  function Told(ns: seq<Notice>, id: nat): seq<TcpClientState> {
    if ns == [] then []
    else Told(ns[..|ns| - 1], id) + if ns[|ns| - 1].id == id then [ns[|ns| - 1].state] else []
  }

  lemma ToldMore(ns: seq<Notice>, n: Notice, id: nat)
    ensures Told(ns + [n], id) == Told(ns, id) + if n.id == id then [n.state] else []
  {
    assert (ns + [n])[..|ns|] == ns;
  }

  lemma {:induction false} ToldNothing(ns: seq<Notice>, id: nat)
    requires forall n :: n in ns ==> n.id != id
    ensures Told(ns, id) == []
  {
    if ns != [] {
      assert ns[|ns| - 1] in ns;
      ToldNothing(ns[..|ns| - 1], id);
    }
  }

  /** How often a client was reported as disconnected. */
  function Farewells(ns: seq<Notice>, id: nat): nat {
    multiset(Told(ns, id))[Disconnected]
  }

  /** Where a connection goes to, and how many attempts it has left: 100 to begin with. */
  datatype TcpManagerConnectInfo = TcpManagerConnectInfo(address: Str, attempts: int)

  /** What application threads tell the loop through the pipe. */
  datatype TcpManagerMessage =
    | SendBufferReceived(id: nat)
    | Disconnect(id: nat, force: bool)
    | TerminateLoop
    | DisconnectAll(force: bool)
    | Connect(info: TcpManagerConnectInfo)

  datatype Accept = NoConnection | Refused | Taken

  /** Everything that may happen, with what the system calls and the delegates answer. A send from within a callback is a
      Send right before or right after the event. */
  datatype LoopEvent =
    // events that the selector reports
    | OnListen(accept: Accept)
    | OnPipe(created: bool)
    | OnClient(id: nat, write: bool, closed: bool, err: nat, plan: seq<Outcome>)
    | OnTimer(each: seq<bool>)
    // application threads
    | Send(id: nat, p: CorePacket)
    | Tell(m: TcpManagerMessage)
    // the other end of the connection
    | PeerSends(id: nat, bytes: seq<Byte>)
    | PeerReads(id: nat, count: nat)

  /** What has happened with one client: sent to it, written, read, and called back; and at the other end of its
      connection: what has arrived from there and what was taken there. */
  datatype Record = Record(client: Client, packets: seq<CorePacket>, written: seq<Byte>, read: seq<Byte>, callbacks: seq<Callback>,
                           arrived: seq<Byte>, taken: seq<Byte>)

  ghost predicate RecordGrew(r: Record, r': Record) {
    r'.client == r.client && r.packets <= r'.packets && r.written <= r'.written && r.read <= r'.read && r.callbacks <= r'.callbacks
  }

  // -------------------------------------------------------------- what events say about one client

  /** The packets that an event sends to client i; the bytes that arrive from its other end; and how many may be taken there. */
  function Sent(e: LoopEvent, i: nat): seq<CorePacket> {
    if e.Send? && e.id == i then [e.p] else []
  }

  function Came(e: LoopEvent, i: nat): seq<Byte> {
    if e.PeerSends? && e.id == i then e.bytes else []
  }

  function Takes(e: LoopEvent, i: nat): nat {
    if e.PeerReads? && e.id == i then e.count else 0
  }

  function SentTo(es: seq<LoopEvent>, i: nat): seq<CorePacket> {
    if es == [] then [] else SentTo(es[..|es| - 1], i) + Sent(es[|es| - 1], i)
  }

  function CameFrom(es: seq<LoopEvent>, i: nat): seq<Byte> {
    if es == [] then [] else CameFrom(es[..|es| - 1], i) + Came(es[|es| - 1], i)
  }

  function TakenFrom(es: seq<LoopEvent>, i: nat): nat {
    if es == [] then 0 else TakenFrom(es[..|es| - 1], i) + Takes(es[|es| - 1], i)
  }

  lemma Regrouped<T>(a: seq<T>, b: seq<T>, c: seq<T>)
    ensures a + b + c == a + (b + c)
  {
  }

  lemma LastJoined<T>(a: seq<T>, b: seq<T>)
    requires b != []
    ensures var last := |a + b| - 1; (a + b)[..last] == a + b[..|b| - 1] && (a + b)[last] == b[|b| - 1]
  {
  }

  lemma {:induction false} SentJoin(es: seq<LoopEvent>, fs: seq<LoopEvent>, i: nat)
    ensures SentTo(es + fs, i) == SentTo(es, i) + SentTo(fs, i)
  {
    hide Sent;
    if fs == [] {
      assert es + fs == es;
    } else {
      var front, last := fs[..|fs| - 1], fs[|fs| - 1];
      SentJoin(es, front, i);
      LastJoined(es, fs);
      Regrouped(SentTo(es, i), SentTo(front, i), Sent(last, i));
    }
  }

  lemma {:induction false} CameJoin(es: seq<LoopEvent>, fs: seq<LoopEvent>, i: nat)
    ensures CameFrom(es + fs, i) == CameFrom(es, i) + CameFrom(fs, i)
  {
    hide Came;
    if fs == [] {
      assert es + fs == es;
    } else {
      var front, last := fs[..|fs| - 1], fs[|fs| - 1];
      CameJoin(es, front, i);
      LastJoined(es, fs);
      Regrouped(CameFrom(es, i), CameFrom(front, i), Came(last, i));
    }
  }

  lemma {:induction false} TakenJoin(es: seq<LoopEvent>, fs: seq<LoopEvent>, i: nat)
    ensures TakenFrom(es + fs, i) == TakenFrom(es, i) + TakenFrom(fs, i)
  {
    if fs == [] {
      assert es + fs == es;
    } else {
      var last := |fs| - 1;
      TakenJoin(es, fs[..last], i);
      assert (es + fs)[..|es + fs| - 1] == es + fs[..last];
    }
  }

  lemma SaysOne(e: LoopEvent, i: nat)
    ensures SentTo([e], i) == Sent(e, i) && CameFrom([e], i) == Came(e, i) && TakenFrom([e], i) == Takes(e, i)
  {
    assert [e][..0] == [];
  }

  /** Nothing happens at the other end of client i's connection. */
  predicate LeftAlone(es: seq<LoopEvent>, i: nat) {
    forall k: nat :: k < |es| ==> !((es[k].PeerSends? || es[k].PeerReads?) && es[k].id == i)
  }

  lemma {:induction false} AloneSays(es: seq<LoopEvent>, i: nat)
    requires LeftAlone(es, i)
    ensures CameFrom(es, i) == [] && TakenFrom(es, i) == 0
  {
    if es != [] {
      AloneSays(es[..|es| - 1], i);
    }
  }

  /** Nothing is taken back; what was sent and what arrived in between is what the events say. */
  ghost predicate RecordFollows(r: Record, r': Record, es: seq<LoopEvent>, i: nat) {
    && RecordGrew(r, r') && r'.packets == r.packets + SentTo(es, i) && r'.arrived == r.arrived + CameFrom(es, i)
    && r.taken <= r'.taken && |r'.taken| <= |r.taken| + TakenFrom(es, i)
  }

  ghost predicate Follows(h: map<nat, Record>, h': map<nat, Record>, es: seq<LoopEvent>) {
    forall i :: i in h ==> i in h' && RecordFollows(h[i], h'[i], es, i)
  }

  lemma RecordStays(r: Record, i: nat)
    ensures RecordFollows(r, r, [], i)
  {
  }

  ghost predicate Extends(h: map<nat, Record>, h': map<nat, Record>) {
    Follows(h, h', [])
  }

  lemma ExtendsItself(h: map<nat, Record>)
    ensures Extends(h, h)
  {
    forall i | i in h
      ensures RecordFollows(h[i], h[i], [], i)
    {
      RecordStays(h[i], i);
    }
  }

  lemma RecordOn(r: Record, r': Record, r'': Record, es: seq<LoopEvent>, fs: seq<LoopEvent>, i: nat)
    requires RecordFollows(r, r', es, i) && RecordFollows(r', r'', fs, i)
    ensures RecordFollows(r, r'', es + fs, i)
  {
    hide SentTo, CameFrom, TakenFrom;
    SentJoin(es, fs, i);
    CameJoin(es, fs, i);
    TakenJoin(es, fs, i);
    assert r.packets + SentTo(es, i) + SentTo(fs, i) == r.packets + (SentTo(es, i) + SentTo(fs, i));
    assert r.arrived + CameFrom(es, i) + CameFrom(fs, i) == r.arrived + (CameFrom(es, i) + CameFrom(fs, i));
  }

  lemma FollowsOn(h: map<nat, Record>, h': map<nat, Record>, h'': map<nat, Record>, es: seq<LoopEvent>, fs: seq<LoopEvent>)
    requires Follows(h, h', es) && Follows(h', h'', fs)
    ensures Follows(h, h'', es + fs)
  {
    hide RecordFollows;
    forall i | i in h
      ensures i in h'' && RecordFollows(h[i], h''[i], es + fs, i)
    {
      RecordOn(h[i], h'[i], h''[i], es, fs, i);
    }
  }

  /** Events that send nothing, and with which nothing happens at the other ends, or only for clients that are not there. */
  lemma Mute(h: map<nat, Record>, h': map<nat, Record>, e: LoopEvent)
    requires Extends(h, h') && (e.Send? || e.PeerSends? || e.PeerReads? ==> e.id !in h)
    ensures Follows(h, h', [e])
  {
    hide RecordGrew, SentTo, CameFrom, TakenFrom;
    forall i | i in h
      ensures i in h' && RecordFollows(h[i], h'[i], [e], i)
    {
      SaysOne(e, i);
      SaysNothing(i);
      assert RecordFollows(h[i], h'[i], [], i);
    }
  }

  lemma SaysNothing(i: nat)
    ensures SentTo([], i) == [] && CameFrom([], i) == [] && TakenFrom([], i) == 0
  {
  }

  lemma ExtendsOn(h: map<nat, Record>, h': map<nat, Record>, h'': map<nat, Record>)
    requires Extends(h, h') && Extends(h', h'')
    ensures Extends(h, h'')
  {
    hide Follows;
    var none: seq<LoopEvent> := [];
    FollowsOn(h, h', h'', none, none);
    assert none + none == none;
  }

  /** The events of these iterations, one after another. */
  function Flat(iterations: seq<seq<LoopEvent>>): seq<LoopEvent> {
    if iterations == [] then [] else Flat(iterations[..|iterations| - 1]) + iterations[|iterations| - 1]
  }

  lemma NoneYet(iterations: seq<seq<LoopEvent>>)
    ensures Flat(iterations[..0]) == []
  {
  }

  lemma FlatNext(iterations: seq<seq<LoopEvent>>, k: nat)
    requires k < |iterations|
    ensures Flat(iterations[..k + 1]) == Flat(iterations[..k]) + iterations[k]
  {
    assert iterations[..k + 1][..k] == iterations[..k];
  }

  lemma {:induction false} FlatPart(iterations: seq<seq<LoopEvent>>, k: nat)
    requires k <= |iterations|
    ensures Flat(iterations[..k]) <= Flat(iterations)
    decreases |iterations| - k
  {
    if k < |iterations| {
      FlatNext(iterations, k);
      FlatPart(iterations, k + 1);
    } else {
      assert iterations[..k] == iterations;
    }
  }

  // -------------------------------------------------------------- commands

  /** What is asked of the loop itself: everything but the word that something was attached. */
  function Command(m: TcpManagerMessage): seq<TcpManagerMessage> {
    if m.SendBufferReceived? then [] else [m]
  }

  function Commands(q: seq<TcpManagerMessage>): seq<TcpManagerMessage> {
    if q == [] then [] else Commands(q[..|q| - 1]) + Command(q[|q| - 1])
  }

  /** The commands that events give. */
  function Orders(es: seq<LoopEvent>): seq<TcpManagerMessage> {
    if es == [] then [] else Orders(es[..|es| - 1]) + Order(es[|es| - 1])
  }

  function Order(e: LoopEvent): seq<TcpManagerMessage> {
    if e.Tell? then Command(e.m) else []
  }

  lemma {:induction false} CommandsJoin(p: seq<TcpManagerMessage>, q: seq<TcpManagerMessage>)
    ensures Commands(p + q) == Commands(p) + Commands(q)
  {
    hide Command;
    if q == [] {
      assert p + q == p;
    } else {
      var front, last := q[..|q| - 1], q[|q| - 1];
      CommandsJoin(p, front);
      LastJoined(p, q);
      Regrouped(Commands(p), Commands(front), Command(last));
    }
  }

  lemma CommandsOne(m: TcpManagerMessage)
    ensures Commands([m]) == Command(m)
  {
    assert [m][..0] == [];
  }

  /** What one event does to the pipe. */
  predicate Piped(e: LoopEvent, q: seq<TcpManagerMessage>, got: seq<TcpManagerMessage>, q': seq<TcpManagerMessage>) {
    match e
    case OnPipe(_) => (got == [] && q' == q) || (got != [] && q == got + q')
    case Tell(m) => got == [] && q' == q + [m]
    case Send(id, _) => got == [] && (q' == q || q' == q + [SendBufferReceived(id)])
    case _ => got == [] && q' == q
  }

  /** Commands are read in order, and none gets lost. */
  lemma PipedOne(e: LoopEvent, q: seq<TcpManagerMessage>, got: seq<TcpManagerMessage>, q': seq<TcpManagerMessage>)
    requires Piped(e, q, got, q')
    ensures Commands(q) + Orders([e]) == Commands(got) + Commands(q')
  {
    hide Commands, Command;
    assert [e][..0] == [];
    CommandsNone();
    match e {
      case OnPipe(_) => CommandsJoin(got, q');
      case Tell(m) => {
        CommandsJoin(q, [m]);
        CommandsOne(m);
      }
      case Send(id, _) => {
        CommandsJoin(q, [SendBufferReceived(id)]);
        CommandsOne(SendBufferReceived(id));
        SentIsNone(id);
      }
      case _ =>
    }
  }

  lemma CommandsNone()
    ensures Commands([]) == []
  {
  }

  lemma SentIsNone(id: nat)
    ensures Command(SendBufferReceived(id)) == []
  {
  }

  lemma {:induction false} OrdersJoin(es: seq<LoopEvent>, fs: seq<LoopEvent>)
    ensures Orders(es + fs) == Orders(es) + Orders(fs)
  {
    hide Order;
    if fs == [] {
      assert es + fs == es;
    } else {
      var front, last := fs[..|fs| - 1], fs[|fs| - 1];
      OrdersJoin(es, front);
      LastJoined(es, fs);
      Regrouped(Orders(es), Orders(front), Order(last));
    }
  }

  /** One iteration after others. */
  lemma CarriedFurther(q0: seq<TcpManagerMessage>, es: seq<LoopEvent>, read: seq<TcpManagerMessage>, q: seq<TcpManagerMessage>,
                       fs: seq<LoopEvent>, got: seq<TcpManagerMessage>, q': seq<TcpManagerMessage>)
    requires Commands(q0) + Orders(es) == Commands(read) + Commands(q) && Commands(q) + Orders(fs) == Commands(got) + Commands(q')
    ensures Commands(q0) + Orders(es + fs) == Commands(read + got) + Commands(q')
  {
    hide *;
    OrdersJoin(es, fs);
    CommandsJoin(read, got);
    Chained(Commands(q0), Orders(es), Commands(read), Commands(q), Orders(fs), Commands(got), Commands(q'));
  }

  lemma Chained<T>(a: seq<T>, b: seq<T>, c: seq<T>, d: seq<T>, e: seq<T>, f: seq<T>, g: seq<T>)
    requires a + b == c + d && d + e == f + g
    ensures a + (b + e) == c + f + g
  {
    Regrouped(a, b, e);
    Regrouped(c, d, e);
    Regrouped(c, f, g);
  }

  lemma NothingYet(q: seq<TcpManagerMessage>)
    ensures Commands(q) + Orders([]) == Commands([]) + Commands(q)
  {
  }

  predicate Answered(each: seq<bool>, k: nat) {
    k < |each| && each[k]
  }

  /** The connections that could be set up, in order. */
  function MadeOf(planned: seq<TcpManagerConnectInfo>, each: seq<bool>): (r: seq<TcpManagerConnectInfo>)
    ensures |r| <= |planned|
  {
    if planned == [] then []
    else
      var last := |planned| - 1;
      MadeOf(planned[..last], each) + if Answered(each, last) then [planned[last]] else []
  }

  /** For each connection made there is a client more, and an entry in the map of connections in progress, under the next
      number; nothing else changes. */
  ghost predicate Numbered(cs: map<nat, Client>, ps: map<nat, TcpManagerConnectInfo>, next: nat,
                           cs': map<nat, Client>, ps': map<nat, TcpManagerConnectInfo>, next': nat, made: seq<TcpManagerConnectInfo>) {
    && next' == next + |made|
    && (forall i: nat :: i in cs' <==> i in cs || next <= i < next') && (forall i :: i in cs ==> cs'[i] == cs[i])
    && (forall i: nat :: i in ps' <==> i in ps || next <= i < next') && (forall i :: i in ps && i < next ==> ps'[i] == ps[i])
    && forall j: nat :: j < |made| ==> ps'[next + j] == made[j]
  }

  lemma NumberedNone(cs: map<nat, Client>, ps: map<nat, TcpManagerConnectInfo>, next: nat)
    ensures Numbered(cs, ps, next, cs, ps, next, [])
  {
  }

  lemma NumberedMore(cs: map<nat, Client>, ps: map<nat, TcpManagerConnectInfo>, next: nat,
                     cs': map<nat, Client>, ps': map<nat, TcpManagerConnectInfo>, next': nat, made: seq<TcpManagerConnectInfo>,
                     c: Client, info: TcpManagerConnectInfo)
    requires Numbered(cs, ps, next, cs', ps', next', made) && forall i :: i in cs ==> i < next
    ensures Numbered(cs, ps, next, cs'[next' := c], ps'[next' := info], next' + 1, made + [info])
  {
  }

  lemma MadeNone(planned: seq<TcpManagerConnectInfo>, each: seq<bool>)
    ensures MadeOf(planned[..0], each) == []
  {
  }

  lemma MadeNext(planned: seq<TcpManagerConnectInfo>, each: seq<bool>, k: nat)
    requires k < |planned|
    ensures MadeOf(planned[..k + 1], each) == if Answered(each, k) then MadeOf(planned[..k], each) + [planned[k]] else MadeOf(planned[..k], each)
  {
    assert MadeOf(planned[..k], each) + [] == MadeOf(planned[..k], each);
    assert planned[..k + 1][..k] == planned[..k];
  }

  /** What was handled, oldest first. */
  class Log {
    ghost var events: seq<LoopEvent>

    constructor ()
      ensures events == []
    {
      events := [];
    }
  }

  /** All but the looks into the pipe. */
  function Acts(es: seq<LoopEvent>): seq<LoopEvent> {
    if es == [] then [] else Acts(es[..|es| - 1]) + if es[|es| - 1].OnPipe? then [] else [es[|es| - 1]]
  }

  lemma {:induction false} ActsJoin(es: seq<LoopEvent>, fs: seq<LoopEvent>)
    ensures Acts(es + fs) == Acts(es) + Acts(fs)
  {
    if fs == [] {
      assert es + fs == es;
    } else {
      ActsJoin(es, fs[..|fs| - 1]);
      LastJoined(es, fs);
    }
  }

  /** The events were handled in their order, save that a loop that is told to stop does not look into the pipe again. */
  predicate Handled(before: seq<LoopEvent>, after: seq<LoopEvent>, es: seq<LoopEvent>, told: bool) {
    && (!told ==> after == before + es)
    && Acts(after) == Acts(before) + Acts(es)
  }

  lemma HandledNone(log: seq<LoopEvent>)
    ensures Handled(log, log, [], false)
  {
  }

  lemma HandledOne(log: seq<LoopEvent>, e: LoopEvent, told: bool)
    ensures Handled(log, log + [e], [e], told)
  {
    ActsJoin(log, [e]);
  }

  lemma HandledSkip(log: seq<LoopEvent>, e: LoopEvent)
    requires e.OnPipe?
    ensures Handled(log, log, [e], true)
  {
    assert [e][..0] == [];
  }

  lemma HandledOn(a: seq<LoopEvent>, b: seq<LoopEvent>, c: seq<LoopEvent>, es: seq<LoopEvent>, fs: seq<LoopEvent>, told: bool, more: bool)
    requires Handled(a, b, es, told) && Handled(b, c, fs, more)
    ensures Handled(a, c, es + fs, told || more)
  {
    hide Acts;
    ActsJoin(es, fs);
    Regrouped(Acts(a), Acts(es), Acts(fs));
    Regrouped(a, es, fs);
  }

  class TcpManager {
    const rrRounds: nat
    const log: Log
    var clients: map<nat, Client>
    var nextClientId: nat
    var connectionsInProgress: map<nat, TcpManagerConnectInfo>
    var plannedConnections: seq<TcpManagerConnectInfo>
    var pipe: seq<TcpManagerMessage>
    var eraseList: seq<Client>
    var notices: seq<Notice>
    /** Every client there ever was: the application may go on using one that was removed. */
    var handles: map<nat, Client>
    ghost var Repr: set<object>

    constructor (rrRounds: nat)
      ensures Valid() && Repr == {this} && this.rrRounds == rrRounds && eraseList == [] && clients == map[] && handles == map[] && notices == [] && pipe == []
      ensures fresh(log) && log.events == []
    {
      this.rrRounds, nextClientId := rrRounds, 1;
      log := new Log();
      clients, handles, connectionsInProgress := map[], map[], map[];
      plannedConnections, pipe, eraseList, notices := [], [], [], [];
      Repr := {this};
    }

    /** No two clients share anything. */
    ghost predicate Footprint()
      reads this
    {
      && this in Repr && log !in Repr
      && (forall i :: i in handles ==> handles[i].id == i && i < nextClientId && handles[i].Parts() <= Repr)
      && (forall i, j :: i in handles && j in handles && i != j ==> handles[i].Parts() !! handles[j].Parts())
    }

    /** A client is reported as disconnected, last of all, when it is removed. A dead one is on the erase list. A live one
        with something to write is watched for writing, or the loop is yet to be told. */
    ghost predicate Entry(i: nat)
      requires Footprint() && i in handles
      reads this, Repr
    {
      var c := handles[i];
      && Told(notices, i) == c.Story() + (if i in clients then [] else [Disconnected])
      && (c in eraseList <==> i in clients && c.dead)
      && (i in clients ==> clients[i] == c)
      && (i in clients && !c.dead ==> Watched(c))
    }

    /** While there is something to write and writing has not failed, the selector watches for it, or the loop will be told. */
    ghost predicate Watched(c: Client)
      reads this, c
    {
      c.writeError == 0 && c.Unsent() != [] ==> c.interest.write || SendBufferReceived(c.id) in pipe
    }

    ghost predicate Books()
      requires Footprint()
      reads this, Repr
    {
      && clients.Keys <= handles.Keys && NoDup(eraseList) && (forall c :: c in eraseList ==> c.id in handles && handles[c.id] == c)
      && (forall n :: n in notices ==> n.id < nextClientId)
      && forall i :: i in handles ==> Entry(i)
    }

    ghost predicate Valid()
      reads this, Repr
    {
      Footprint() && Books() && forall i :: i in handles ==> handles[i].Ok()
    }

    ghost function RecordOf(c: Client): Record
      reads c, c.incoming, c.outgoing, c.receiveBuffer
    {
      Record(c, c.packets, c.outgoing.accepted, c.incoming.consumed, c.receiveBuffer.callbacks, c.incoming.accepted, c.outgoing.consumed)
    }

    /** What has happened with every client so far. */
    ghost function History(): map<nat, Record>
      requires Footprint()
      reads this, Repr
    {
      map i | i in handles :: RecordOf(handles[i])
    }

    // -------------------------------------------------------------- steps within an event

    twostate predicate Buried(c: Client)
      reads this, c
    {
      c.dead && eraseList == if old(c.dead) then old(eraseList) else old(eraseList) + [c]
    }

    /** Onto the erase list, unless it is there already. */
    method Bury(c: Client)
      modifies this`eraseList, c`dead
      ensures Buried(c)
    {
      if !c.dead {
        eraseList := eraseList + [c];
        c.dead := true;
      }
    }

    method Notify(c: Client, state: TcpClientState, error: nat)
      modifies this`notices
      ensures notices == old(notices) + [Notice(c.id, state, error)]
    {
      notices := notices + [Notice(c.id, state, error)];
    }

    /** stopReading: what is unsent may still go out; with nothing left to write the client is done. */
    method StopReading(c: Client, error: Errno)
      requires c.QueueOk()
      modifies this`eraseList, this`notices, c`readError, c`interest, c`dead, c`sendBuffer, c`sendBufferQueue
      ensures c.QueueOk() && c.Unsent() == old(c.Unsent()) && c.readError == error
      ensures StoppedReading(c)
    {
      hide UnsentIn, BuffersOk;
      c.readError := error;
      Notify(c, Disconnecting, error);
      var b := c.NextSendBuffer();
      if b.Some? {
        c.interest := Interest(false, true);
      } else {
        Bury(c);
      }
    }

    /** stopWriting: the end if reading has failed; otherwise on with reading only, and after a disconnect that is not
        forced the write side is shut for good. */
    method StopWriting(c: Client, error: nat)
      modifies this`eraseList, c`dead, c`interest, c`state, c`writeError
      ensures StoppedWriting(c, error) && c.Unsent() == old(c.Unsent()) && (old(c.QueueOk()) ==> c.QueueOk())
    {
      hide Client.Unsent, Client.QueueOk;
      var e := error;
      if c.readError != 0 {
        Bury(c);
      } else {
        c.interest := Interest(true, false);
        if c.state.Disconnecting? {
          if e == 0 {
            e := EYAICDISCONNECT;
          }
          c.state := WritingClosed;
        }
      }
      c.writeError := e;
      c.QueueStill();
    }

    twostate predicate StoppedReading(c: Client)
      reads this, c
    {
      notices == old(notices) + [Notice(c.id, Disconnecting, c.readError)]
      && if c.writeError == 0 && c.Unsent() != [] then c.interest == Interest(false, true) && c.dead == old(c.dead) && eraseList == old(eraseList)
         else c.interest == old(c.interest) && Buried(c)
    }

    /** writeEvent: what is written comes off the front of what was unsent. Either there is more to write and nothing else
        has changed, or writing has stopped: with everything written, or failed. */
    method WriteEvent(c: Client, plan: seq<Outcome>, rounds: nat) returns (stop: Option<nat>)
      requires c.QueueOk() && c.outgoing.Valid() && rounds <= rrRounds
      modifies this`eraseList, c`dead, c`interest, c`state, c`writeError, c`sendBuffer, c`sendBufferQueue, c.outgoing
      ensures Written(c, stop) && Wrote(c, plan, rounds, stop)
      decreases rrRounds - rounds, 1
    {
      hide UnsentIn, BuffersOk, PendingIn, Client.Unsent, Client.Pending, Client.QueueOk, WriteRun, MoreRun, Left, Moves, Sum, Socket.Valid, Remaining, Passed;
      c.PendingAdds();
      ghost var todo := c.Pending();
      WriteEnds(todo, plan, rrRounds - rounds);
      PassedNothing(c.outgoing.accepted, c.Unsent());
      var buffer := c.NextSendBuffer();
      if buffer.None? {
        stop := Some(c.writeError);
        StopWriting(c, c.writeError);
        return;
      }
      var o, rest := NextOutcome(plan);
      var failed := c.WriteFrom(buffer.value, o);
      if failed.Some? {
        stop := failed;
        StopWriting(c, failed.value);
        return;
      }
      ghost var accepted, unsent := c.outgoing.accepted, c.Unsent();
      stop := WriteMore(c, rest, rounds);
      WriteOn(todo, plan, rrRounds - rounds, old(c.outgoing.accepted), old(c.Unsent()), accepted, unsent, c.outgoing.accepted, c.Unsent());
    }

    /** writeEvent after a call that has not failed: is there anything left? */
    method WriteMore(c: Client, plan: seq<Outcome>, rounds: nat) returns (stop: Option<nat>)
      requires c.QueueOk() && c.outgoing.Valid() && rounds <= rrRounds && c.writeError == 0
      modifies this`eraseList, c`dead, c`interest, c`state, c`writeError, c`sendBuffer, c`sendBufferQueue, c.outgoing
      ensures Written(c, stop) && Went(c, MoreRun(old(c.Pending()), plan, rrRounds - rounds), stop)
      decreases rrRounds - rounds, 0
    {
      hide UnsentIn, BuffersOk, PendingIn, Client.Unsent, Client.Pending, Client.QueueOk, WriteRun, Left, Least, Sum, Socket.Valid, Remaining;
      c.PendingAdds();
      var buffer := c.NextSendBuffer();
      if buffer.None? {
        stop := Some(c.writeError);
        StopWriting(c, c.writeError);
      } else if rounds < rrRounds {
        stop := WriteEvent(c, plan, rounds + 1);
      } else {
        stop := None;
      }
    }

    /** This many bytes of what was unsent went out, and writing stopped with this. */
    twostate predicate Went(c: Client, new r: (nat, Option<nat>), new stop: Option<nat>)
      reads c, c.outgoing
    {
      Passed(old(c.outgoing.accepted), old(c.Unsent()), c.outgoing.accepted, c.Unsent(), r.0) && stop == r.1
    }

    /** How much is written, and what writing stops with, is what the answers to the write calls come to. */
    twostate predicate Wrote(c: Client, new plan: seq<Outcome>, new rounds: nat, new stop: Option<nat>)
      requires old(c.QueueOk()) && rounds <= rrRounds
      reads c, c.outgoing
    {
      if old(c.writeError) == 0 then Went(c, WriteRun(old(c.Pending()), plan, rrRounds - rounds), stop)
      else c.outgoing.accepted == old(c.outgoing.accepted)
    }

    twostate predicate Written(c: Client, new stop: Option<nat>)
      reads this, c, c.outgoing
    {
      && c.QueueOk() && c.outgoing.Valid() && c.outgoing.consumed == old(c.outgoing.consumed)
      && c.outgoing.accepted + c.Unsent() == old(c.outgoing.accepted + c.Unsent()) && old(c.outgoing.accepted) <= c.outgoing.accepted
      && (old(c.writeError) != 0 ==> stop == Some(old(c.writeError)))
      && match stop
         case None =>
           c.Unsent() != [] && c.writeError == old(c.writeError) == 0 && c.state == old(c.state)
           && c.interest == old(c.interest) && c.dead == old(c.dead) && eraseList == old(eraseList)
         case Some(error) => (error == 0 ==> c.Unsent() == []) && StoppedWriting(c, error)
    }

    twostate predicate StoppedWriting(c: Client, new error: nat)
      reads this, c
    {
      if c.readError != 0 then
        Buried(c) && c.interest == old(c.interest) && c.state == old(c.state) && c.writeError == error
      else
        c.dead == old(c.dead) && eraseList == old(eraseList) && c.interest == Interest(true, false)
        && if old(c.state).Disconnecting? then c.state == WritingClosed && c.writeError == (if error == 0 then EYAICDISCONNECT else error)
           else c.state == old(c.state) && c.writeError == error
    }

    /** Reading goes on, or it has stopped for good; what is unsent stays unsent. */
    twostate predicate ReadFrom(c: Client, new stop: Option<Errno>)
      reads this, c
    {
      c.Unsent() == old(c.Unsent())
      && if stop.Some? then c.readError == stop.value && StoppedReading(c)
         else c.readError == 0 && c.interest == old(c.interest) && c.dead == old(c.dead) && eraseList == old(eraseList) && notices == old(notices)
    }

    /** readEvent, up to the point where reading stops. */
    method ReadEvent(c: Client, closed: bool, plan: seq<Outcome>) returns (stop: Option<Errno>)
      requires c.QueueOk() && c.Receives() && c.readError == 0
      modifies this`eraseList, this`notices, c`readError, c`interest, c`dead, c`sendBuffer, c`sendBufferQueue
      modifies c.receiveBuffer, c.receiveBuffer.data, c.incoming
      ensures c.QueueOk() && c.Receives() && c.incoming.accepted == old(c.incoming.accepted)
      ensures old(c.incoming.consumed) <= c.incoming.consumed && old(c.receiveBuffer.callbacks) <= c.receiveBuffer.callbacks
      ensures ReadFrom(c, stop) && Got(c, closed, plan, stop)
    {
      hide UnsentIn, BuffersOk, TcpReceiveBuffer.Valid, TcpReceiveBuffer.InStep, Split, AllDelivered, CallbackOk, ReadRun, Partial, Client.QueueOk, Client.Unsent;
      stop := c.receiveBuffer.ReadEvent(c.incoming, closed || c.state.WritingClosed?, plan, 0);
      if stop.Some? {
        StopReading(c, stop.value);
      }
    }

    /** How much is read, and what reading stops with, is what the answers to the read calls come to. A client whose write
        side was shut is read as if the other end had closed. */
    twostate predicate Got(c: Client, new closed: bool, new plan: seq<Outcome>, new stop: Option<Errno>)
      requires old(c.Receives()) && old(c.readError) == 0
      reads c, c.incoming
    {
      var b := c.receiveBuffer;
      && Partial(old(b.data[..b.received]))
      && var r := ReadRun(old(b.data[..b.received]), old(c.incoming.wire), plan, closed || old(c.state).WritingClosed?, b.rrRounds);
        Passed(old(c.incoming.consumed), old(c.incoming.wire), c.incoming.consumed, c.incoming.wire, r.got) && stop == r.stop
    }

    // -------------------------------------------------------------- one event at one client leaves the others alone

    /** An event that is about c alone: it touches nothing of anybody else. */
    twostate predicate About(c: Client)
      reads this, Repr
    {
      && handles == old(handles) && clients == old(clients) && nextClientId == old(nextClientId) && Repr == old(Repr)
      && c.id in handles && handles[c.id] == c
      && (forall o :: o in Repr && o !in c.Parts() && o != this ==> unchanged(o))
      && old(notices) <= notices && (forall n :: n in notices[|old(notices)|..] ==> n.id == c.id)
      && (eraseList == old(eraseList) || (eraseList == old(eraseList) + [c] && c !in old(eraseList)))
      && (forall m :: m in old(pipe) && m.SendBufferReceived? && m.id != c.id ==> m in pipe)
    }

    twostate lemma Aside(c: Client)
      requires old(Footprint()) && About(c)
      ensures Footprint()
      ensures forall i :: i in handles && i != c.id ==> var d := handles[i];
        unchanged(d) && unchanged(d.incoming) && unchanged(d.outgoing) && unchanged(d.receiveBuffer) && unchanged(d.receiveBuffer.data)
    {
      FootprintKept();
      forall i | i in handles && i != c.id
        ensures forall o :: o in handles[i].Parts() ==> unchanged(o)
      {
        assert handles[i].Parts() <= old(Repr) && handles[i].Parts() !! c.Parts();
        assert forall o :: o in handles[i].Parts() ==> o in old(Repr) && o !in c.Parts() && o != this;
      }
    }

    twostate lemma OthersKept(c: Client)
      requires old(Valid()) && About(c)
      ensures Footprint() && forall i :: i in handles && i != c.id ==> handles[i].Ok() && Entry(i)
    {
      hide Client.Ok, Told, Client.Story, UnsentIn, BuffersOk, Footprint;
      Aside(c);
      forall i | i in handles && i != c.id
        ensures handles[i].Ok() && Entry(i)
      {
        assert old(handles[i].Ok()) && old(Entry(i));
        ToldOthers(old(notices), notices, i, c.id);
      }
    }

    /** The books are in order again after an event that is about one client. */
    twostate lemma Settled(c: Client, new es: seq<LoopEvent>)
      requires old(Valid()) && About(c) && c.Ok() && (Footprint() ==> Entry(c.id)) && Grew(c) && Accounted(c, es)
      ensures Valid() && Follows(old(History()), History(), es) && (es == [] ==> Extends(old(History()), History()))
    {
      hide Client.Ok, Entry, Follows, History, Accounted, Grew, Footprint, Books;
      OthersKept(c);
      HistoryMoves(c, es);
      BooksAgain(c);
    }

    /** What was sent to c, and what happened at the other end, is what the one event in es says, if there is one. */
    twostate predicate Accounted(c: Client, new es: seq<LoopEvent>)
      reads c, c.incoming, c.outgoing
    {
      && c.packets == old(c.packets) + SentTo(es, c.id) && c.incoming.accepted == old(c.incoming.accepted) + CameFrom(es, c.id)
      && old(c.outgoing.consumed) <= c.outgoing.consumed && |c.outgoing.consumed| <= |old(c.outgoing.consumed)| + TakenFrom(es, c.id)
      && (es == [] || (|es| == 1 && (es[0].Send? || es[0].PeerSends? || es[0].PeerReads?) && es[0].id == c.id))
    }

    twostate lemma SentOne(c: Client, new p: CorePacket)
      requires c.packets == old(c.packets) + [p] && unchanged(c.incoming) && unchanged(c.outgoing) && unchanged(c.receiveBuffer)
      ensures Grew(c) && Accounted(c, [Send(c.id, p)])
    {
      SaysOne(Send(c.id, p), c.id);
    }

    twostate lemma AllAtRest(c: Client)
      requires AtRest(c) && c.packets == old(c.packets)
      ensures Accounted(c, [])
    {
    }

    twostate lemma BooksAgain(c: Client)
      requires old(Footprint()) && old(Books()) && About(c) && Footprint() && forall i :: i in handles ==> Entry(i)
      ensures Books()
    {
      hide Entry, Footprint, Told;
      FootprintIds();
      assert notices == old(notices) + notices[|old(notices)|..];
    }

    lemma FootprintIds()
      requires Footprint()
      ensures forall i :: i in handles ==> handles[i].id == i && i < nextClientId
    {
    }

    /** Nothing is taken back of what was sent to c, or written, read and called back for it. */
    twostate predicate Grew(c: Client)
      reads c, c.incoming, c.outgoing, c.receiveBuffer
    {
      && old(c.packets) <= c.packets && old(c.outgoing.accepted) <= c.outgoing.accepted
      && old(c.incoming.consumed) <= c.incoming.consumed && old(c.receiveBuffer.callbacks) <= c.receiveBuffer.callbacks
    }

    /** The other end has done nothing. */
    twostate predicate AtRest(c: Client)
      reads c, c.incoming, c.outgoing
    {
      c.incoming.accepted == old(c.incoming.accepted) && c.outgoing.consumed == old(c.outgoing.consumed)
    }

    twostate lemma HistoryMoves(c: Client, new es: seq<LoopEvent>)
      requires old(Footprint()) && About(c) && Footprint() && Grew(c) && Accounted(c, es)
      ensures Follows(old(History()), History(), es)
    {
      hide Footprint, Client.Parts, RecordOf, RecordFollows, Accounted, Grew;
      Aside(c);
      CountedRecord(c, es);
      forall i | i in handles && i != c.id
        ensures RecordFollows(old(RecordOf(handles[i])), RecordOf(handles[i]), es, i)
      {
        assert RecordOf(handles[i]) == old(RecordOf(handles[i]));
        NotConcerned(c, es, RecordOf(handles[i]), i);
      }
    }

    twostate lemma CountedRecord(c: Client, new es: seq<LoopEvent>)
      requires Grew(c) && Accounted(c, es)
      ensures RecordFollows(old(RecordOf(c)), RecordOf(c), es, c.id)
    {
      hide SentTo, CameFrom, TakenFrom;
    }

    twostate lemma NotConcerned(c: Client, new es: seq<LoopEvent>, new r: Record, new i: nat)
      requires Accounted(c, es) && i != c.id
      ensures RecordFollows(r, r, es, i)
    {
      RecordStays(r, i);
      if es != [] {
        assert es == [es[0]];
        SaysOne(es[0], i);
      }
    }

    /** No client is touched. */
    twostate predicate Untouched()
      reads this, Repr
    {
      handles == old(handles) && Repr == old(Repr) && nextClientId >= old(nextClientId) && forall o :: o in Repr && o != this ==> unchanged(o)
    }

    twostate lemma AllAside()
      requires old(Footprint()) && Untouched()
      ensures Footprint()
      ensures forall i :: i in handles ==> var d := handles[i];
        unchanged(d) && unchanged(d.incoming) && unchanged(d.outgoing) && unchanged(d.receiveBuffer) && unchanged(d.receiveBuffer.data)
    {
      forall i | i in handles
        ensures forall o :: o in handles[i].Parts() ==> unchanged(o)
      {
        assert handles[i].Parts() <= Repr;
      }
    }

    twostate lemma HistoryStays()
      requires old(Footprint()) && Untouched() && Footprint()
      ensures Extends(old(History()), History())
    {
      hide Footprint, Client.Parts, RecordOf, RecordFollows;
      AllAside();
      forall i | i in handles
        ensures RecordFollows(old(RecordOf(handles[i])), RecordOf(handles[i]), [], i)
      {
        assert RecordOf(handles[i]) == old(RecordOf(handles[i]));
        RecordStays(RecordOf(handles[i]), i);
      }
    }

    /** The books stay in order when no client is touched. */
    twostate lemma NobodyMoved()
      requires old(Valid()) && Untouched() && clients == old(clients)
      requires notices == old(notices) && eraseList == old(eraseList)
      requires forall i :: i in clients && SendBufferReceived(i) in old(pipe) ==> SendBufferReceived(i) in pipe
      ensures Valid() && Extends(old(History()), History())
    {
      hide Client.Ok, Told, Client.Story, UnsentIn, Footprint, Extends, History;
      AllAside();
      HistoryStays();
      forall i | i in handles
        ensures handles[i].Ok() && Entry(i)
      {
        assert old(handles[i].Ok()) && old(Entry(i));
      }
    }

    static lemma {:induction false} ToldOthers(ns: seq<Notice>, more: seq<Notice>, i: nat, j: nat)
      requires i != j && ns <= more && forall n :: n in more[|ns|..] ==> n.id == j
      ensures Told(more, i) == Told(ns, i)
      decreases |more|
    {
      if |more| > |ns| {
        var last := |more| - 1;
        assert more[|ns|..][last - |ns|] == more[last];
        assert forall n :: n in more[..last][|ns|..] ==> n in more[|ns|..];
        ToldOthers(ns, more[..last], i, j);
      } else {
        assert more == ns;
      }
    }

    // -------------------------------------------------------------- application threads

    /** sendTo, also to a client that was removed: the packet is encoded and queued, and the loop is told. */
    method SendTo(c: Client, p: CorePacket)
      requires Valid() && c.id in handles && handles[c.id] == c
      modifies this`pipe, c`sendBufferQueue, c`packets
      ensures Valid() && Follows(old(History()), History(), [Send(c.id, p)]) && pipe == old(pipe) + [SendBufferReceived(c.id)]
      ensures c.packets == old(c.packets) + [p] && c.Unsent() == old(c.Unsent()) + EncodePacket(p)
    {
      hide Told, Client.Ok, Books, Entry, EncodePacket, Client.Sends, Client.Receives, Client.Staged, Client.Unsent, Follows, History, Footprint, Accounted, Grew, SentTo, CameFrom, TakenFrom;
      InHandles(c);
      c.Enqueue(p);
      pipe := pipe + [SendBufferReceived(c.id)];
      assert SendBufferReceived(c.id) in pipe;
      FootprintKept();
      StillBooked(c);
      SentOne(c, p);
      Settled(c, [Send(c.id, p)]);
    }

    lemma InHandles(c: Client)
      requires Valid() && c.id in handles && handles[c.id] == c
      ensures c.Ok() && Entry(c.id) && c.Sends() && c.Receives() && c.incoming != c.outgoing && c.incoming.Valid() && c.outgoing.Valid()
    {
    }

    /** Bytes come and go, c stays as it is. */
    twostate lemma StillBooked(c: Client)
      requires old(Footprint()) && old(c.id in handles) && old(handles[c.id] == c) && old(c.Ok()) && old(Entry(c.id)) && Footprint()
      requires handles == old(handles) && clients == old(clients) && notices == old(notices) && eraseList == old(eraseList) && old(pipe) <= pipe
      requires c.state == old(c.state) && c.dead == old(c.dead) && c.readError == old(c.readError) && c.writeError == old(c.writeError)
      requires c.reported == old(c.reported) && c.interest == old(c.interest)
      requires c.Sends() && c.Receives() && old(c.Unsent()) <= c.Unsent() && (c.Unsent() == old(c.Unsent()) || SendBufferReceived(c.id) in pipe)
      ensures c.Ok() && Entry(c.id)
    {
      hide Told, Client.Unsent, Client.Sends, Client.Receives;
    }

    /** disconnect, disconnectAll, connect and stopLoop */
    method Tell(m: TcpManagerMessage)
      requires Valid()
      modifies this`pipe
      ensures Valid() && Extends(old(History()), History()) && pipe == old(pipe) + [m]
    {
      hide Valid;
      pipe := pipe + [m];
      NobodyMoved();
    }

    // -------------------------------------------------------------- events of the selector

    twostate predicate Established(c: Client)
      reads this, c
    {
      && c.state == Connected && c.reported == Some(Connected) && c.dead == old(c.dead) == false && c.connectError == old(c.connectError)
      && notices == old(notices) + [Notice(c.id, Connected, 0)] && eraseList == old(eraseList)
    }

    twostate predicate NotEstablished(c: Client, info: TcpManagerConnectInfo, new err: nat)
      reads this, c
    {
      && c.dead && c.connectError == err && c.state == old(c.state) && eraseList == old(eraseList) + [c]
      && if info.attempts > 1 then
           plannedConnections == old(plannedConnections) + [info.(attempts := info.attempts - 1)]
           && notices == old(notices) && c.reported == old(c.reported)
         else
           plannedConnections == old(plannedConnections)
           && notices == old(notices) + [Notice(c.id, FailedToEstablish, err)] && c.reported == Some(FailedToEstablish)
    }

    /** connectEvent: the connection is up; or this client is done for, and there will be another attempt or word of failure. */
    method ConnectEvent(c: Client, err: nat) returns (up: bool)
      modifies this`eraseList, this`notices, this`connectionsInProgress, this`plannedConnections
      modifies c`state, c`dead, c`connectError, c`reported
      ensures up <==> !old(c.dead) && c.id in old(connectionsInProgress) && err == 0
      ensures old(c.dead) || c.id !in old(connectionsInProgress) ==> unchanged(this) && unchanged(c)
      ensures !old(c.dead) && c.id in old(connectionsInProgress) ==> connectionsInProgress == old(connectionsInProgress) - {c.id}
      ensures up ==> Established(c) && plannedConnections == old(plannedConnections)
      ensures !old(c.dead) && c.id in old(connectionsInProgress) && err != 0 ==> NotEstablished(c, old(connectionsInProgress)[c.id], err)
    {
      if c.dead || c.id !in connectionsInProgress {
        return false;
      }
      var info := connectionsInProgress[c.id];
      connectionsInProgress := connectionsInProgress - {c.id};
      if err == 0 {
        c.state := Connected;
        Notify(c, Connected, 0);
        c.reported := Some(Connected);
        return true;
      }
      info := info.(attempts := info.attempts - 1);
      if info.attempts > 0 {
        plannedConnections := plannedConnections + [info];
      } else {
        Notify(c, FailedToEstablish, err);
        c.reported := Some(FailedToEstablish);
      }
      Bury(c);
      c.connectError := err;
      up := false;
    }

    twostate lemma Parted()
      requires old(Footprint())
      ensures forall i :: i in old(handles) ==> old(handles)[i].id == i && i < old(nextClientId) && old(handles)[i].Parts() <= old(Repr)
    {
    }

    twostate lemma FootprintKept()
      requires old(Footprint()) && handles == old(handles) && nextClientId == old(nextClientId) && Repr == old(Repr)
      ensures Footprint()
    {
    }

    /** connectEvent, for a client that is in the books */
    method Connecting(c: Client, err: nat) returns (up: bool)
      requires Valid() && c.id in clients && clients[c.id] == c && c.state.Disconnected?
      modifies this`eraseList, this`notices, this`connectionsInProgress, this`plannedConnections
      modifies c`state, c`dead, c`connectError, c`reported
      ensures Valid() && Extends(old(History()), History()) && old(notices) <= notices
      ensures up <==> !old(c.dead) && c.id in old(connectionsInProgress) && err == 0
      ensures up ==> Established(c) && c.state.Connected?
      ensures old(c.dead) || c.id !in old(connectionsInProgress) ==> NothingDone(c)
      ensures !old(c.dead) && c.id in old(connectionsInProgress) && err != 0 ==> NotEstablished(c, old(connectionsInProgress)[c.id], err)
    {
      hide Told, Client.Ok, Footprint, Books, Entry, Client.QueueOk, Client.Unsent, Client.Sends, Client.Receives, Client.Staged, Client.HalfClosed, Client.Story, Watched, Established, NotEstablished, Extends, History, Accounted, Follows, SentTo, CameFrom, TakenFrom, Known, AtRest, Socket.Valid, RecordOf, TcpReceiveBuffer.Valid, About, Client.Parts;
      InBooks(c.id);
      var info := if c.id in connectionsInProgress then Some(connectionsInProgress[c.id]) else None;
      up := ConnectEvent(c, err);
      FootprintKept();
      KnownBefore(c);
      ConnectedOk(c, info, err);
      OnlyThere(c);
      AllAtRest(c);
      Settled(c, []);
    }

    /** Nothing but c has changed, and nothing about any other client was said. */
    twostate lemma OnlyThere(c: Client)
      requires handles == old(handles) && clients == old(clients) && nextClientId == old(nextClientId) && Repr == old(Repr)
      requires c.id in handles && handles[c.id] == c && forall o :: o in Repr && o != c && o != this ==> unchanged(o)
      requires pipe == old(pipe) && old(notices) <= notices && forall n :: n in notices[|old(notices)|..] ==> n.id == c.id
      requires eraseList == old(eraseList) || (eraseList == old(eraseList) + [c] && c !in old(eraseList))
      ensures About(c)
    {
    }

    twostate lemma ConnectedOk(c: Client, new info: Option<TcpManagerConnectInfo>, new err: nat)
      requires Known(c) && Footprint() && clients == old(clients) && pipe == old(pipe) && old(c.state).Disconnected?
      requires unchanged(c.outgoing) && unchanged(c.incoming) && unchanged(c.receiveBuffer) && unchanged(c.receiveBuffer.data)
      requires c.packets == old(c.packets) && c.readError == old(c.readError) && c.writeError == old(c.writeError)
      requires c.sendBuffer == old(c.sendBuffer) && c.sendBufferQueue == old(c.sendBufferQueue) && c.interest == old(c.interest)
      requires old(c.dead) || info.None? ==> c.dead == old(c.dead) && c.reported == old(c.reported) && c.state == old(c.state)
                                             && notices == old(notices) && eraseList == old(eraseList)
      requires !old(c.dead) && info.Some? ==> Established(c) || NotEstablished(c, info.value, err)
      ensures c.Ok() && Entry(c.id)
    {
      hide Client.Unsent, Client.Sends, Client.Receives, Told, Footprint;
      c.ReceivesStill();
      c.SendsStill();
      if |notices| > |old(notices)| {
        ToldMore(old(notices), notices[|old(notices)|], c.id);
      }
    }

    twostate lemma KnownBefore(c: Client)
      requires old(Valid()) && old(c.id in clients) && old(clients[c.id] == c) && handles == old(handles)
      ensures Known(c)
    {
      hide Client.Ok, Footprint, Told, Client.Story, Watched, NoDup;
      assert old(c.id in handles && Entry(c.id));
    }

    /** c was in the books before the event. */
    twostate predicate Known(c: Client)
      reads this, Repr
    {
      old(Footprint()) && old(c.id in handles) && old(handles[c.id] == c) && old(c.id in clients) && old(c.Ok()) && old(Entry(c.id))
      && c.id in handles && handles[c.id] == c
    }

    /** writeEvent, for a client that is in the books */
    method Writing(c: Client, plan: seq<Outcome>) returns (stop: Option<nat>)
      requires Valid() && c.id in clients && clients[c.id] == c && !c.state.Disconnected?
      modifies this`eraseList, c, c.outgoing
      ensures Valid() && Extends(old(History()), History())
      ensures Written(c, stop) && c.reported == old(c.reported)
      ensures old(c.QueueOk()) && Wrote(c, plan, 0, stop)
      ensures c.packets == old(c.packets) && c.outgoing.consumed == old(c.outgoing.consumed) && old(c.outgoing.accepted) <= c.outgoing.accepted
    {
      hide Told, Client.Ok, Footprint, Books, Entry, Client.QueueOk, Client.Unsent, Client.Sends, Client.Receives, Client.Staged, Socket.Valid, Accounted, Follows, SentTo, CameFrom, TakenFrom, Written, Wrote, Grew, AtRest;
      InBooks(c.id);
      stop := WriteEvent(c, plan, 0);
      FootprintKept();
      WrittenAside(c, stop);
      WrittenOk(c, stop);
      AllAtRest(c);
      Settled(c, []);
    }

    /** What writing does to the books: c at most goes onto the erase list. */
    twostate lemma WrittenAside(c: Client, new stop: Option<nat>)
      requires Written(c, stop) && c.packets == old(c.packets) && unchanged(c.incoming) && unchanged(c.receiveBuffer)
      requires c in old(eraseList) <==> old(c.dead)
      ensures Grew(c) && AtRest(c) && (eraseList == old(eraseList) || (eraseList == old(eraseList) + [c] && c !in old(eraseList)))
      ensures c.outgoing.consumed == old(c.outgoing.consumed) && old(c.outgoing.accepted) <= c.outgoing.accepted
      ensures !old(c.state).Disconnected? ==> !c.state.Disconnected?
    {
      hide Client.Unsent, Client.QueueOk, Socket.Valid;
    }

    twostate lemma WrittenOk(c: Client, new stop: Option<nat>)
      requires Known(c) && Footprint() && Written(c, stop) && !c.state.Disconnected? && !old(c.state).Disconnected?
      requires clients == old(clients) && pipe == old(pipe) && notices == old(notices)
      requires c.packets == old(c.packets) && c.readError == old(c.readError) && c.reported == old(c.reported)
      requires unchanged(c.incoming) && unchanged(c.receiveBuffer) && unchanged(c.receiveBuffer.data)
      ensures c.Ok() && Entry(c.id)
    {
      hide Client.Unsent, Client.QueueOk, Stream, Client.Receives, Told, Footprint;
      c.ReceivesStill();
      WrittenEntry(c, stop);
    }

    twostate lemma WrittenEntry(c: Client, new stop: Option<nat>)
      requires Known(c) && Footprint() && Written(c, stop) && clients == old(clients) && pipe == old(pipe) && notices == old(notices)
      requires c.readError == old(c.readError) && c.reported == old(c.reported)
      ensures Entry(c.id)
    {
      hide Client.Ok, Client.QueueOk, Client.Unsent, Told, Footprint;
    }

    /** readEvent, for a client that is in the books */
    method Reading(c: Client, closed: bool, plan: seq<Outcome>) returns (stop: Option<Errno>)
      requires Valid() && c.id in clients && clients[c.id] == c && !c.state.Disconnected? && c.readError == 0
      modifies this`eraseList, this`notices, c, c.receiveBuffer, c.receiveBuffer.data, c.incoming
      ensures Valid() && Extends(old(History()), History()) && old(notices) <= notices && c.packets == old(c.packets) && c.incoming.accepted == old(c.incoming.accepted)
      ensures ReadFrom(c, stop) && c.reported == old(c.reported)
      ensures old(c.Receives()) && Got(c, closed, plan, stop)
      ensures old(c.incoming.consumed) <= c.incoming.consumed && old(c.receiveBuffer.callbacks) <= c.receiveBuffer.callbacks
    {
      hide Told, Client.Ok, Footprint, Books, Entry, Client.QueueOk, Client.Unsent, Client.Sends, Client.Receives, Client.Staged, ReadRun, Partial, Got, Accounted, Follows, SentTo, CameFrom, TakenFrom;
      InBooks(c.id);
      stop := ReadEvent(c, closed, plan);
      FootprintKept();
      ReadOk(c, stop);
      AllAtRest(c);
      Settled(c, []);
    }

    twostate lemma ReadOk(c: Client, new stop: Option<Errno>)
      requires Known(c) && Footprint() && clients == old(clients) && pipe == old(pipe) && !c.state.Disconnected? && old(c.readError) == 0
      requires c.QueueOk() && c.Receives() && unchanged(c.outgoing)
      requires c.packets == old(c.packets) && c.reported == old(c.reported) && c.state == old(c.state) && c.writeError == old(c.writeError)
      requires ReadFrom(c, stop)
      ensures c.Ok() && Entry(c.id)
    {
      hide Client.Unsent, Client.QueueOk, Stream, Client.Receives, Told, Footprint;
      if |notices| > |old(notices)| {
        ToldMore(old(notices), notices[|old(notices)|], c.id);
      }
    }

    /** Writing or reading, whichever the event is about; nothing is read any more once reading has failed. */
    method Transfer(id: nat, write: bool, closed: bool, plan: seq<Outcome>)
      requires Valid() && id in clients && !clients[id].state.Disconnected?
      modifies this`eraseList, this`notices, clients[id].Parts()
      ensures Valid() && Extends(old(History()), History()) && clients == old(clients) && handles == old(handles) && Repr == old(Repr) && pipe == old(pipe) && old(notices) <= notices
      ensures Kept(clients[id]) && clients[id].reported == old(clients[id].reported)
      ensures Transferred(clients[id], write, closed, plan)
    {
      hide Told, Books, Footprint, Client.Ok, Client.Sends, Client.Receives, Client.Staged, Client.QueueOk, Entry, Extends, History, Written, Wrote, ReadFrom, Got;
      var c := clients[id];
      InBooks(id);
      ExtendsItself(History());
      if write {
        var stop := Writing(c, plan);
      } else if c.readError == 0 {
        var stop := Reading(c, closed, plan);
      }
    }

    /** Nothing is sent to c, and nothing happens at the other end; what was written, read and called back stays. */
    twostate predicate Kept(c: Client)
      reads c, c.incoming, c.outgoing, c.receiveBuffer
    {
      c.packets == old(c.packets) && AtRest(c) && Grew(c)
    }

    /** The client has been written to, or read from, as the calls answer. */
    twostate predicate Transferred(c: Client, new write: bool, new closed: bool, new plan: seq<Outcome>)
      reads this, c, c.incoming, c.outgoing
    {
      if write then old(c.QueueOk()) && exists stop :: Written(c, stop) && Wrote(c, plan, 0, stop)
      else if old(c.readError) == 0 then old(c.Receives()) && exists stop :: ReadFrom(c, stop) && Got(c, closed, plan, stop)
      else NothingDone(c)
    }

    twostate predicate NothingDone(c: Client)
      reads this, c, c.incoming, c.outgoing
    {
      unchanged(c) && unchanged(c.incoming) && unchanged(c.outgoing) && notices == old(notices) && eraseList == old(eraseList)
    }

    /** The same bytes for a connection that has come up with this very event. */
    twostate predicate AtOnce(c: Client, new write: bool, new closed: bool, new plan: seq<Outcome>)
      reads this, c, c.incoming, c.outgoing
    {
      if write then old(c.QueueOk()) && exists stop :: Wrote(c, plan, 0, stop)
      else old(c.readError) == 0 ==> old(c.Receives()) && exists stop :: Got(c, closed, plan, stop)
    }

    /** The branch of runLoop for an event on a client socket. */
    method ClientEvent(id: nat, write: bool, closed: bool, err: nat, plan: seq<Outcome>)
      requires Valid() && id in clients
      modifies this`eraseList, this`notices, this`connectionsInProgress, this`plannedConnections, clients[id].Parts()
      ensures Valid() && Extends(old(History()), History()) && clients == old(clients) && handles == old(handles) && Repr == old(Repr) && pipe == old(pipe) && old(notices) <= notices
      ensures Kept(clients[id])
      ensures ClientDid(clients[id], write, closed, err, plan)
    {
      hide Told, Books, Footprint, Client.Ok, Client.Sends, Client.Receives, Client.Staged, Client.QueueOk, Entry, Extends, History, NotEstablished, Transferred, AtOnce, NothingDone, Kept;
      InBooks(id);
      if clients[id].state.Disconnected? {
        Attempted(id, write, closed, err, plan);
      } else {
        Transfer(id, write, closed, plan);
      }
    }

    /** The same for a connection that is not up. */
    method Attempted(id: nat, write: bool, closed: bool, err: nat, plan: seq<Outcome>)
      requires Valid() && id in clients && clients[id].state.Disconnected?
      modifies this`eraseList, this`notices, this`connectionsInProgress, this`plannedConnections, clients[id].Parts()
      ensures Valid() && Extends(old(History()), History()) && clients == old(clients) && handles == old(handles) && Repr == old(Repr) && pipe == old(pipe) && old(notices) <= notices
      ensures Kept(clients[id])
      ensures ClientDid(clients[id], write, closed, err, plan)
    {
      hide Told, Books, Footprint, Client.Ok, Client.Sends, Client.Receives, Client.Staged, Client.QueueOk, Entry, Extends, History, NotEstablished, Written, ReadFrom, WriteRun, ReadRun, Partial, Passed;
      var c := clients[id];
      InBooks(id);
      ghost var before := History();
      var up := Connecting(c, err);
      if !up {
        return;
      }
      c.QueueStill();
      ghost var between := History();
      label Up:
      Transfer(id, write, closed, plan);
      ExtendsOn(before, between, History());
      if write {
        ghost var stop :| Written@Up(c, stop) && Wrote@Up(c, plan, 0, stop);
        assert Wrote(c, plan, 0, stop);
      } else if old(c.readError) == 0 {
        ghost var stop :| ReadFrom@Up(c, stop) && Got@Up(c, closed, plan, stop);
        assert Got(c, closed, plan, stop);
      }
    }

    /** What an event at a client brings about: a connection that is not up yet comes up or is given up; one that is up is
        written to or read from; and nothing happens to one that is done for. */
    twostate predicate ClientDid(c: Client, new write: bool, new closed: bool, new err: nat, new plan: seq<Outcome>)
      reads this, c, c.incoming, c.outgoing
    {
      if !old(c.state).Disconnected? then Transferred(c, write, closed, plan)
      else if !old(c.dead) && c.id in old(connectionsInProgress) then
        if err == 0 then c.reported == Some(Connected) && AtOnce(c, write, closed, plan)
        else NotEstablished(c, old(connectionsInProgress)[c.id], err) && unchanged(c.incoming) && unchanged(c.outgoing)
      else NothingDone(c)
    }

    lemma EveryNumber()
      requires Valid()
      ensures forall i :: i in clients ==> clients[i].id == i
    {
      assert forall i :: i in clients ==> i in handles && Entry(i);
    }

    lemma InBooks(id: nat)
      requires Valid() && id in clients
      ensures id in handles && handles[id] == clients[id] && clients[id].id == id && clients[id].Ok() && Entry(id)
      ensures clients[id] in eraseList <==> clients[id].dead
      ensures clients[id].incoming != clients[id].outgoing && clients[id].QueueOk() && clients[id].outgoing.Valid() && clients[id].Sends() && clients[id].Receives() && clients[id].Staged()
    {
      hide Footprint, Client.Ok, Told, Watched, Client.Story;
      Numbers(id);
      assert Entry(id) && handles[id].Ok();
      clients[id].Halves();
    }

    lemma Numbers(id: nat)
      requires Footprint() && id in handles
      ensures handles[id].id == id
    {
    }

    /** What the application's wish to disconnect does to one client. */
    method Leave(c: Client, force: bool)
      modifies this`eraseList, c`state, c`dead
      ensures if force then Buried(c) else c.dead == old(c.dead) && eraseList == old(eraseList)
      ensures c.state == if !force && old(c.state).Connected? then Disconnecting else old(c.state)
    {
      if force {
        Bury(c);
      } else if c.state.Connected? {
        c.state := Disconnecting;
      }
    }

    twostate predicate Woken(c: Client, new disconnect: bool, new force: bool)
      reads this, c
    {
      && (if disconnect && force then Buried(c) else c.dead == old(c.dead) && eraseList == old(eraseList))
      && c.state == (if disconnect && !force && old(c.state).Connected? then Disconnecting else old(c.state))
      && c.interest == if c.readError == 0 || c.writeError == 0 then Interest(c.readError == 0, c.writeError == 0) else old(c.interest)
    }

    /** The part of pipeNotification for one client: something was attached, or the application wants it disconnected. */
    method WakeUp(c: Client, disconnect: bool, force: bool)
      requires c.id in clients && clients[c.id] == c
      modifies this`eraseList, c`state, c`dead, c`interest
      ensures Woken(c, disconnect, force)
    {
      if disconnect {
        Leave(c, force);
      }
      if c.readError == 0 || c.writeError == 0 {
        c.interest := Interest(c.readError == 0, c.writeError == 0);
      }
    }

    /** The next message is about one client. */
    method ClientMessage(c: Client, disconnect: bool, force: bool)
      requires Valid() && c.id in clients && clients[c.id] == c
      requires pipe != [] && pipe[0] == if disconnect then Disconnect(c.id, force) else SendBufferReceived(c.id)
      modifies this`pipe, this`eraseList, c`state, c`dead, c`interest
      ensures Valid() && Extends(old(History()), History()) && pipe == old(pipe)[1..]
      ensures Woken(c, disconnect, force)
    {
      hide Told, Client.Ok, Footprint, Books, Entry, Client.QueueOk, Client.Unsent, Client.Sends, Client.Receives, Client.Staged, Client.HalfClosed, Client.Story, Watched, Extends, History, Accounted, Follows, SentTo, CameFrom, TakenFrom;
      InBooks(c.id);
      WakeUp(c, disconnect, force);
      pipe := pipe[1..];
      FootprintKept();
      WokenOk(c);
      assert old(pipe) == [old(pipe)[0]] + pipe;
      AllAtRest(c);
      Settled(c, []);
    }

    twostate lemma WokenOk(c: Client)
      requires Known(c) && Footprint() && clients == old(clients) && notices == old(notices)
      requires unchanged(c.outgoing) && unchanged(c.incoming) && unchanged(c.receiveBuffer) && unchanged(c.receiveBuffer.data)
      requires c.packets == old(c.packets) && c.readError == old(c.readError) && c.writeError == old(c.writeError) && c.reported == old(c.reported)
      requires c.sendBuffer == old(c.sendBuffer) && c.sendBufferQueue == old(c.sendBufferQueue)
      requires Buried(c) || (c.dead == old(c.dead) && eraseList == old(eraseList))
      requires c.state == old(c.state) || (old(c.state).Connected? && c.state.Disconnecting?)
      requires c.interest == (if c.readError == 0 || c.writeError == 0 then Interest(c.readError == 0, c.writeError == 0) else old(c.interest))
               || (c.interest == old(c.interest) && pipe == old(pipe))
      ensures c.Ok() && Entry(c.id)
    {
      hide Client.Unsent, Client.Sends, Client.Receives, Told, Footprint;
      c.ReceivesStill();
      c.SendsStill();
    }

    /** The next message is about no client, or about one that was removed. */
    method Skip()
      requires Valid() && pipe != [] && (pipe[0].SendBufferReceived? ==> pipe[0].id !in clients)
      modifies this`pipe
      ensures Valid() && Extends(old(History()), History()) && pipe == old(pipe)[1..]
    {
      hide Valid;
      ghost var m := pipe[0];
      pipe := pipe[1..];
      assert old(pipe) == [m] + pipe;
      NobodyMoved();
    }

    twostate predicate Left(c: Client, new force: bool, new asked: bool)
      reads c
    {
      && c.dead == ((asked && force) || old(c.dead))
      && c.state == if asked && !force && old(c.state).Connected? then Disconnecting else old(c.state)
    }

    method DisconnectOne(c: Client, force: bool)
      requires Valid() && c.id in clients && clients[c.id] == c
      modifies this`eraseList, c`state, c`dead
      ensures Valid() && Extends(old(History()), History()) && Left(c, force, true)
    {
      hide Told, Client.Ok, Footprint, Books, Entry, BuffersOk, UnsentIn, Client.Sends, Client.Receives, Client.Staged, Accounted, Follows, SentTo, CameFrom, TakenFrom;
      InBooks(c.id);
      Leave(c, force);
      FootprintKept();
      WokenOk(c);
      AllAtRest(c);
      Settled(c, []);
    }

    /** TMMTDisconnectAll */
    method DisconnectEveryone(force: bool)
      requires Valid()
      modifies this`eraseList, clients.Values`state, clients.Values`dead
      ensures Valid() && Extends(old(History()), History())
      ensures forall i :: i in clients ==> Left(clients[i], force, true)
    {
      hide Books, Footprint, Client.Ok, Entry, Extends, History;
      ghost var before := History();
      ExtendsItself(before);
      EveryNumber();
      var todo := clients.Keys;
      while todo != {}
        invariant todo <= clients.Keys && Valid() && Extends(before, History())
        invariant forall i :: i in clients ==> Left(clients[i], force, i !in todo)
        decreases |todo|
      {
        var i :| i in todo;
        ghost var sofar := History();
        DisconnectOne(clients[i], force);
        ExtendsOn(before, sofar, History());
        todo := todo - {i};
      }
    }

    // -------------------------------------------------------------- clients come and go

    /** A client enters the books. */
    method Enter(state: TcpClientState, interest: Interest) returns (c: Client)
      requires Valid()
      modifies this`clients, this`handles, this`nextClientId, this`Repr
      ensures old(Repr) <= Repr && fresh(Repr - old(Repr))
      ensures Valid() && Extends(old(History()), History()) && Entered(c) && fresh(c.Parts()) && c.state == state && c.interest == interest
      ensures !c.dead && c.Unsent() == [] && c.packets == [] && c.reported == None && c.receiveBuffer.callbacks == []
    {
      hide Valid, Entry, Told, Client.Ok, Client.Unsent;
      NumberFree();
      c := new Client(nextClientId, rrRounds, state, interest);
      clients, handles := clients[nextClientId := c], handles[nextClientId := c];
      nextClientId := nextClientId + 1;
      Repr := Repr + c.Parts();
      Enroll(c);
    }

    lemma NumberFree()
      requires Valid()
      ensures nextClientId !in handles && nextClientId !in clients
      ensures forall i :: i in clients ==> i < nextClientId
    {
    }

    twostate lemma Apart(new c: Client)
      requires old(Footprint()) && Entered(c) && fresh(c.Parts())
      ensures Footprint()
    {
      assert forall i :: i in old(handles) ==> handles[i].Parts() <= old(Repr);
    }

    twostate lemma FriendsAside(new c: Client)
      requires old(Footprint()) && Entered(c) && forall o :: o in old(Repr) && o != this ==> unchanged(o)
      ensures forall i :: i in old(handles) ==> i in handles && handles[i] == old(handles)[i] && var d := handles[i];
        unchanged(d) && unchanged(d.incoming) && unchanged(d.outgoing) && unchanged(d.receiveBuffer) && unchanged(d.receiveBuffer.data)
    {
      Parted();
      forall i | i in old(handles)
        ensures forall o :: o in old(handles)[i].Parts() ==> unchanged(o)
      {
        assert old(handles)[i].Parts() <= old(Repr);
      }
    }

    twostate lemma OldFriends(new c: Client)
      requires old(Valid()) && Entered(c) && Footprint()
      requires notices == old(notices) && eraseList == old(eraseList) && pipe == old(pipe)
      requires forall o :: o in old(Repr) && o != this ==> unchanged(o)
      ensures forall i :: i in old(handles) ==> handles[i].Ok() && Entry(i) && RecordOf(handles[i]) == old(RecordOf(handles[i]))
    {
      hide Client.Ok, Told, Client.Unsent, Footprint, NoDup, Client.Story, Client.Parts, RecordOf;
      FriendsAside(c);
      forall i | i in old(handles)
        ensures handles[i].Ok() && Entry(i) && RecordOf(handles[i]) == old(RecordOf(handles[i]))
      {
        assert old(handles[i].Ok()) && old(Entry(i));
      }
    }

    twostate lemma Enroll(new c: Client)
      requires old(Valid()) && Entered(c) && fresh(c.Parts()) && c.Ok()
      requires !c.dead && c.Unsent() == [] && c.reported == None && c.readError == 0
      requires notices == old(notices) && eraseList == old(eraseList) && pipe == old(pipe)
      requires forall o :: o in old(Repr) && o != this ==> unchanged(o)
      ensures Valid() && Extends(old(History()), History())
    {
      hide Client.Ok, Told, Client.Unsent, Footprint, Entry, Books, Client.Parts, Extends, History, RecordOf;
      assert old(Footprint()) && old(Books());
      Apart(c);
      OldFriends(c);
      FirstEntry(c);
      EnrollBooks(c);
      EnrollHistory(c);
    }

    twostate lemma EnrollHistory(new c: Client)
      requires old(Footprint()) && Footprint() && Entered(c)
      requires forall i :: i in old(handles) ==> RecordOf(handles[i]) == old(RecordOf(handles[i]))
      ensures Extends(old(History()), History())
    {
      hide Footprint, Client.Parts, RecordOf, RecordFollows;
      forall i | i in old(handles)
        ensures RecordFollows(old(RecordOf(handles[i])), RecordOf(handles[i]), [], i)
      {
        RecordStays(RecordOf(handles[i]), i);
      }
    }

    twostate lemma EnrollBooks(new c: Client)
      requires old(Footprint()) && old(Books()) && Footprint() && Entered(c) && notices == old(notices) && eraseList == old(eraseList)
      requires forall i :: i in handles ==> Entry(i)
      ensures Books()
    {
      hide Entry, NoDup, Footprint;
    }

    twostate lemma FirstEntry(new c: Client)
      requires old(Valid()) && Entered(c) && Footprint() && notices == old(notices) && eraseList == old(eraseList)
      requires !c.dead && c.Unsent() == [] && c.reported == None && c.readError == 0
      ensures Entry(c.id)
    {
      hide Client.Ok, Client.Unsent;
      Parted();
      ToldNothing(notices, c.id);
      assert c !in eraseList;
    }

    twostate predicate Entered(new c: Client)
      reads this
    {
      && c.id == old(nextClientId) && nextClientId == old(nextClientId) + 1 && clients == old(clients)[c.id := c] && handles == old(handles)[c.id := c]
      && c.id !in old(handles) && c.id !in old(clients) && Repr == old(Repr) + c.Parts()
    }

    /** newConnection: a connection that the pool refuses only uses up a number. */
    method NewConnection(accept: Accept) returns (c: Option<Client>)
      requires Valid()
      modifies this`clients, this`handles, this`nextClientId, this`Repr
      ensures old(Repr) <= Repr && fresh(Repr - old(Repr))
      ensures Valid() && Extends(old(History()), History()) && (c.Some? <==> accept.Taken?)
      ensures c.Some? ==> Entered(c.value) && fresh(c.value.Parts()) && c.value.state == Connected && c.value.interest == Interest(true, false)
                          && !c.value.dead && c.value.packets == [] && c.value.Unsent() == [] && c.value.receiveBuffer.callbacks == []
      ensures c.None? ==> clients == old(clients) && handles == old(handles) && Repr == old(Repr)
                          && nextClientId == old(nextClientId) + if accept.Refused? then 1 else 0
    {
      hide Valid, Entry;
      match accept {
        case NoConnection =>
          c := None;
        case Refused =>
          nextClientId := nextClientId + 1;
          c := None;
          NobodyMoved();
        case Taken =>
          var c0 := Enter(Connected, Interest(true, false));
          c := Some(c0);
      }
    }

    /** createConnection; when a system call fails the request is dropped. The connection is not up yet. */
    method CreateConnection(info: TcpManagerConnectInfo, created: bool) returns (c: Option<Client>)
      requires Valid()
      modifies this`clients, this`handles, this`nextClientId, this`Repr, this`connectionsInProgress
      ensures old(Repr) <= Repr && fresh(Repr - old(Repr))
      ensures Valid() && Extends(old(History()), History()) && (c.Some? <==> created)
      ensures c.Some? ==> Entered(c.value) && fresh(c.value.Parts()) && c.value.state == Disconnected && c.value.interest == Interest(true, true)
                          && !c.value.dead && connectionsInProgress == old(connectionsInProgress)[c.value.id := info]
      ensures c.None? ==> clients == old(clients) && handles == old(handles) && Repr == old(Repr) && nextClientId == old(nextClientId)
                          && connectionsInProgress == old(connectionsInProgress)
    {
      hide Books, Entry, Extends, History, Footprint;
      ghost var before := History();
      ExtendsItself(before);
      if created {
        connectionsInProgress := connectionsInProgress[nextClientId := info];
        NobodyMoved();
        ghost var between := History();
        var c0 := Enter(Disconnected, Interest(true, true));
        ExtendsOn(before, between, History());
        c := Some(c0);
      } else {
        c := None;
      }
    }

    /** The end of an iteration of runLoop: the clients on the erase list are reported, in order, and removed. */
    method EraseDead()
      requires Valid()
      modifies this`clients, this`eraseList, this`notices
      ensures Valid() && Extends(old(History()), History()) && eraseList == [] && old(notices) <= notices && handles == old(handles)
      ensures clients == map i | i in old(clients) && !old(clients)[i].dead :: old(clients)[i]
      ensures |notices| == |old(notices)| + |old(eraseList)|
      ensures forall k: nat :: k < |old(eraseList)| ==> Farewell(notices[|old(notices)| + k], old(eraseList)[k])
    {
      hide Books, Footprint, Client.Ok, Entry, NoDup, Extends, History, Farewell;
      Dead();
      ghost var before, todo := History(), eraseList;
      ExtendsItself(before);
      ghost var done: nat := 0;
      while eraseList != []
        invariant Valid() && handles == old(handles) && Extends(before, History())
        invariant clients.Keys <= old(clients).Keys && forall i :: i in clients ==> clients[i] == old(clients)[i]
        invariant forall i :: i in old(clients) && i !in clients ==> old(clients)[i].dead
        invariant done <= |todo| && eraseList == todo[done..] && old(notices) <= notices && |notices| == |old(notices)| + done
        invariant forall k: nat :: k < done ==> Farewell(notices[|old(notices)| + k], todo[k])
        decreases |eraseList|
      {
        ghost var sofar := History();
        EraseFirst();
        LastWord(notices[|notices| - 1], todo[done]);
        ExtendsOn(before, sofar, History());
        done := done + 1;
      }
      Dead();
    }

    /** The last word about c, with its errors in order of precedence. */
    ghost predicate Farewell(n: Notice, c: Client)
      reads c
    {
      && n.id == c.id && n.state == Disconnected
      && (c.connectError != 0 ==> n.error == c.connectError)
      && (c.connectError == 0 && c.writeError != 0 ==> n.error == c.writeError)
      && (c.connectError == 0 && c.writeError == 0 ==> n.error == c.readError)
    }

    lemma LastWord(n: Notice, c: Client)
      requires n.id == c.id && n.state == Disconnected
      requires c.connectError != 0 ==> n.error == c.connectError
      requires c.connectError == 0 && c.writeError != 0 ==> n.error == c.writeError
      requires c.connectError == 0 && c.writeError == 0 ==> n.error == c.readError
      ensures Farewell(n, c)
    {
    }

    /** The dead clients are the ones on the erase list. */
    lemma Dead()
      requires Valid()
      ensures forall i :: i in clients ==> i in handles && clients[i] == handles[i] && (clients[i].dead <==> clients[i] in eraseList)
    {
      assert forall i :: i in clients ==> i in handles && Entry(i);
    }

    method EraseFirst()
      requires Valid() && eraseList != []
      modifies this`clients, this`eraseList, this`notices
      ensures Valid() && Extends(old(History()), History()) && var c := old(eraseList)[0];
        && eraseList == old(eraseList)[1..] && c.dead && c.id in old(clients) && old(clients)[c.id] == c && c.id in handles && handles[c.id] == c
        && clients == old(clients) - {c.id} && old(notices) <= notices && |notices| == |old(notices)| + 1
        && var n := notices[|old(notices)|];
          && n.id == c.id && n.state == Disconnected
          && (c.connectError != 0 ==> n.error == c.connectError)
          && (c.connectError == 0 && c.writeError != 0 ==> n.error == c.writeError)
          && (c.connectError == 0 && c.writeError == 0 ==> n.error == c.readError)
      ensures handles == old(handles)
    {
      hide Valid, NoDup;
      var c := eraseList[0];
      FirstDead();
      var error := c.connectError;
      if error == 0 {
        error := c.writeError;
        if error == 0 {
          error := c.readError;
        }
      }
      Notify(c, Disconnected, error);
      clients := clients - {c.id};
      eraseList := eraseList[1..];
      Erased(c);
    }

    lemma FirstDead()
      requires Valid() && eraseList != []
      ensures var c := eraseList[0]; c.dead && c.id in clients && clients[c.id] == c && c.id in handles && handles[c.id] == c
    {
      var c := eraseList[0];
      assert c in eraseList;
      assert Entry(c.id);
    }

    twostate predicate Removed(c: Client)
      reads this, Repr
    {
      && old(eraseList) != [] && old(eraseList)[0] == c && eraseList == old(eraseList)[1..] && clients == old(clients) - {c.id}
      && Untouched() && pipe == old(pipe) && c.id in handles && handles[c.id] == c && |notices| == |old(notices)| + 1 && old(notices) <= notices
      && notices[|old(notices)|].id == c.id && notices[|old(notices)|].state == Disconnected
    }

    twostate lemma Erased(c: Client)
      requires old(Valid()) && Removed(c)
      ensures Valid() && Extends(old(History()), History())
    {
      hide Client.Ok, Entry, NoDup, Extends, History, Footprint;
      assert old(eraseList) == [c] + eraseList;
      TailNoDup(old(eraseList));
      assert old(notices) + [notices[|old(notices)|]] == notices;
      AllAside();
      HistoryStays();
      EntriesLeft(c);
      forall i | i in handles
        ensures handles[i].Ok()
      {
        assert old(handles[i].Ok());
      }
    }

    twostate lemma EntriesLeft(c: Client)
      requires old(Footprint()) && old(Books()) && Footprint() && Removed(c)
      ensures forall i :: i in handles ==> Entry(i)
    {
      hide Entry, NoDup, Footprint;
      Parted();
      forall i | i in handles
        ensures Entry(i)
      {
        EntryLeft(c, i);
      }
    }

    twostate lemma EntryLeft(c: Client, new i: nat)
      requires old(Footprint()) && Footprint() && Removed(c) && i in handles && old(Entry(i)) && old(NoDup(eraseList))
      requires handles[i].id == i && handles[i] in old(Repr)
      ensures Entry(i)
    {
      hide Told, Client.Unsent, Client.Story, NoDup, Footprint;
      var d := handles[i];
      assert old(eraseList) == [c] + eraseList;
      TailNoDup(old(eraseList));
      assert old(notices) + [notices[|old(notices)|]] == notices;
      assert unchanged(d);
      ToldMore(old(notices), notices[|old(notices)|], i);
    }

    // -------------------------------------------------------------- the other end of a connection

    twostate lemma PeerOk(c: Client)
      requires old(Footprint()) && old(c.id in handles) && old(handles[c.id] == c) && old(c.Ok()) && old(Entry(c.id)) && Footprint()
      requires unchanged(this) && unchanged(c) && unchanged(c.receiveBuffer) && unchanged(c.receiveBuffer.data)
      requires c.incoming.Valid() && c.outgoing.Valid()
      requires c.incoming.consumed == old(c.incoming.consumed) && c.outgoing.accepted == old(c.outgoing.accepted)
      ensures c.Ok() && Entry(c.id)
    {
      hide Told, BuffersOk, Stream, TcpReceiveBuffer.Valid, Split, AllDelivered, CallbackOk, UnsentIn;
    }

    method PeerSends(c: Client, bytes: seq<Byte>)
      requires Valid() && c.id in handles && handles[c.id] == c
      modifies c.incoming
      ensures Valid() && Follows(old(History()), History(), [LoopEvent.PeerSends(c.id, bytes)])
      ensures c.incoming.accepted == old(c.incoming.accepted) + bytes && c.incoming.consumed == old(c.incoming.consumed)
    {
      hide Told, Client.Ok, Books, Entry, Client.Sends, Client.Receives, Client.Staged, Client.HalfClosed, Follows, History, Footprint;
      InHandles(c);
      var n := c.incoming.Write(bytes, Moved(|bytes|));
      assert bytes[..|bytes|] == bytes;
      FootprintKept();
      PeerOk(c);
      SaysOne(LoopEvent.PeerSends(c.id, bytes), c.id);
      Settled(c, [LoopEvent.PeerSends(c.id, bytes)]);
    }

    method PeerReads(c: Client, count: nat) returns (bytes: seq<Byte>)
      requires Valid() && c.id in handles && handles[c.id] == c
      modifies c.outgoing
      ensures Valid() && Follows(old(History()), History(), [LoopEvent.PeerReads(c.id, count)])
      ensures |bytes| <= count && c.outgoing.accepted == old(c.outgoing.accepted) && c.outgoing.consumed == old(c.outgoing.consumed) + bytes
    {
      hide Told, Client.Ok, Books, Entry, Client.Sends, Client.Receives, Client.Staged, Client.HalfClosed, Follows, History, Footprint;
      InHandles(c);
      var buf := new Byte[count](_ => 0);
      var n := c.outgoing.Read(buf, 0, count, Moved(count));
      bytes := buf[..n];
      FootprintKept();
      PeerOk(c);
      SaysOne(LoopEvent.PeerReads(c.id, count), c.id);
      Settled(c, [LoopEvent.PeerReads(c.id, count)]);
    }

    // -------------------------------------------------------------- runLoop

    /** createConnection, as far as the timer cares. */
    method TryAgain(info: TcpManagerConnectInfo, created: bool)
      requires Valid()
      modifies this`clients, this`handles, this`nextClientId, this`Repr, this`connectionsInProgress
      ensures old(Repr) <= Repr && fresh(Repr - old(Repr)) && Valid() && Extends(old(History()), History())
      ensures nextClientId == old(nextClientId) + if created then 1 else 0
      ensures if created then
                && nextClientId - 1 in clients && clients == old(clients)[nextClientId - 1 := clients[nextClientId - 1]]
                && connectionsInProgress == old(connectionsInProgress)[nextClientId - 1 := info]
                && clients[nextClientId - 1].state == Disconnected && !clients[nextClientId - 1].dead
              else clients == old(clients) && connectionsInProgress == old(connectionsInProgress)
    {
      hide Valid, Extends, History, Client.Unsent;
      var c := CreateConnection(info, created);
      assert c.Some? ==> clients[nextClientId - 1] == c.value;
    }

    /** The timer: every planned connection is tried again. */
    method RetryPlanned(each: seq<bool>)
      requires Valid()
      modifies this`clients, this`handles, this`nextClientId, this`Repr, this`connectionsInProgress, this`plannedConnections
      ensures old(Repr) <= Repr && fresh(Repr - old(Repr))
      ensures Valid() && Extends(old(History()), History()) && plannedConnections == [] && Tried(MadeOf(old(plannedConnections), each))
    {
      hide Books, Footprint, Client.Ok, Entry, Extends, History, MadeOf, Client.Unsent, Numbered, Client.Parts;
      NumberFree();
      ghost var before := History();
      ExtendsItself(before);
      MadeNone(plannedConnections, each);
      NumberedNone(clients, connectionsInProgress, nextClientId);
      for k := 0 to |plannedConnections|
        invariant Valid() && Extends(before, History()) && plannedConnections == old(plannedConnections)
        invariant old(Repr) <= Repr && fresh(Repr - old(Repr)) && eraseList == old(eraseList) && notices == old(notices)
        invariant Tried(MadeOf(plannedConnections[..k], each))
      {
        ghost var sofar, cs, ps, next := History(), clients, connectionsInProgress, nextClientId;
        TryAgain(plannedConnections[k], Answered(each, k));
        MadeNext(plannedConnections, each, k);
        if Answered(each, k) {
          NumberedMore(old(clients), old(connectionsInProgress), old(nextClientId), cs, ps, next, MadeOf(plannedConnections[..k], each),
                       clients[next], plannedConnections[k]);
        }
        ExtendsOn(before, sofar, History());
      }
      ghost var sofar := History();
      label Done:
      assert plannedConnections[..|plannedConnections|] == plannedConnections;
      plannedConnections := [];
      NobodyMoved@Done();
      ExtendsOn(before, sofar, History());
    }

    /** New clients for exactly these connections, in this order, with the next numbers; none of them is up yet. */
    twostate predicate Tried(new made: seq<TcpManagerConnectInfo>)
      reads this, clients.Values
    {
      && Numbered(old(clients), old(connectionsInProgress), old(nextClientId), clients, connectionsInProgress, nextClientId, made)
      && forall i :: i in clients && i !in old(clients) ==> clients[i].state == Disconnected && !clients[i].dead
    }

    /** What each message brings about. Messages for clients that were removed are ignored. */
    twostate predicate Obeyed(new m: TcpManagerMessage, new created: bool)
      reads this, Repr
    {
      match m
      case TerminateLoop => Untouched()
      case SendBufferReceived(id) => if id in old(clients) then Repr == old(Repr) && old(clients)[id] in Repr && Woken(old(clients)[id], false, false) else Untouched()
      case Disconnect(id, force) => if id in old(clients) then Repr == old(Repr) && old(clients)[id] in Repr && Woken(old(clients)[id], true, force) else Untouched()
      case DisconnectAll(force) =>
        clients == old(clients) && forall i :: i in clients ==> clients[i] in Repr && Left(clients[i], force, true)
      case Connect(info) =>
        if created then nextClientId == old(nextClientId) + 1 && connectionsInProgress == old(connectionsInProgress)[old(nextClientId) := info]
        else Untouched()
    }

    method ObeyConnect(info: TcpManagerConnectInfo, created: bool)
      requires Valid() && pipe != [] && pipe[0] == Connect(info)
      modifies this`clients, this`handles, this`nextClientId, this`Repr, this`connectionsInProgress, this`pipe
      ensures old(Repr) <= Repr && fresh(Repr - old(Repr)) && Valid() && Extends(old(History()), History())
      ensures pipe == old(pipe)[1..] && Obeyed(old(pipe)[0], created)
    {
      hide Books, Footprint, Client.Ok, Entry, Follows, History;
      ghost var before := History();
      Skip();
      ghost var sofar := History();
      var _ := CreateConnection(info, created);
      ExtendsOn(before, sofar, History());
    }

    method ObeyDisconnectAll(force: bool, ghost created: bool)
      requires Valid() && pipe != [] && pipe[0] == DisconnectAll(force)
      modifies this`eraseList, clients.Values`state, clients.Values`dead, this`pipe
      ensures Valid() && Extends(old(History()), History()) && pipe == old(pipe)[1..] && Obeyed(old(pipe)[0], created)
    {
      hide Books, Footprint, Client.Ok, Entry, Follows, History;
      ghost var before := History();
      AllOwned();
      Skip();
      ghost var sofar := History();
      DisconnectEveryone(force);
      ExtendsOn(before, sofar, History());
    }

    method ObeyClient(m: TcpManagerMessage, ghost created: bool)
      requires Valid() && pipe != [] && pipe[0] == m && (m.SendBufferReceived? || m.Disconnect?) && m.id in clients
      modifies this`pipe, this`eraseList, clients[m.id]
      ensures Valid() && Extends(old(History()), History()) && pipe == old(pipe)[1..] && Obeyed(old(pipe)[0], created)
    {
      hide Books, Footprint, Client.Ok, Entry, Follows, History, Woken;
      InBooks(m.id);
      Owned(m.id);
      ClientMessage(clients[m.id], m.Disconnect?, m.Disconnect? && m.force);
    }

    /** pipeNotification: the next message, if there is one; the result says whether the loop shall stop. */
    method PipeNotification(created: bool) returns (stop: bool)
      requires Valid()
      modifies Repr
      ensures old(Repr) <= Repr && fresh(Repr - old(Repr)) && Valid() && Extends(old(History()), History())
      ensures old(notices) <= notices && pipe == (if old(pipe) == [] then [] else old(pipe)[1..]) && (stop <==> old(pipe) != [] && old(pipe)[0].TerminateLoop?)
      ensures old(pipe) != [] ==> Obeyed(old(pipe)[0], created)
    {
      hide Books, Footprint, Client.Ok, Entry, Follows, History, Obeyed;
      ExtendsItself(History());
      AllOwned();
      stop := false;
      if pipe == [] {
        return;
      }
      var m := pipe[0];
      if m.Connect? {
        ObeyConnect(m.info, created);
      } else if m.DisconnectAll? {
        ObeyDisconnectAll(m.force, created);
      } else if (m.SendBufferReceived? || m.Disconnect?) && m.id in clients {
        ObeyClient(m, created);
      } else {
        Skip();
        stop := m.TerminateLoop?;
        Ignored(m, created);
      }
    }

    /** A message for a removed client, or the one that stops the loop. */
    twostate lemma Ignored(new m: TcpManagerMessage, new created: bool)
      requires Untouched() && (m.TerminateLoop? || ((m.SendBufferReceived? || m.Disconnect?) && m.id !in old(clients)))
      ensures Obeyed(m, created)
    {
    }

    /** What belongs to a client belongs to the manager. */
    lemma Owned(id: nat)
      requires Footprint() && id in handles
      ensures handles[id].Parts() <= Repr && handles[id].id == id && this in Repr
    {
    }

    lemma TheirParts(id: nat)
      requires Valid() && id in clients
      ensures clients[id].Parts() <= Repr
    {
      InBooks(id);
      Owned(id);
    }

    lemma AllOwned()
      requires Valid()
      ensures this in Repr && log !in Repr && forall c :: c in clients.Values ==> c in Repr
    {
      assert forall i :: i in clients ==> i in handles && Entry(i);
    }

    /** A number is used up by every connection that came; one that was taken is a client, watched for reading. */
    twostate predicate Listened(accept: Accept)
      reads this, Repr
    {
      && nextClientId == old(nextClientId) + (if accept.NoConnection? then 0 else 1)
      && (if accept.Taken? then
            && old(nextClientId) in clients && clients == old(clients)[old(nextClientId) := clients[old(nextClientId)]]
            && clients[old(nextClientId)] in Repr && clients[old(nextClientId)].state == Connected
            && clients[old(nextClientId)].interest == Interest(true, false)
          else clients == old(clients))
    }

    method Listen(accept: Accept)
      requires Valid()
      modifies this`clients, this`handles, this`nextClientId, this`Repr
      ensures old(Repr) <= Repr && fresh(Repr - old(Repr)) && Valid() && Extends(old(History()), History()) && Listened(accept)
    {
      hide Books, Footprint, Client.Ok, Entry, Extends, History;
      var _ := NewConnection(accept);
    }

    /** One event, whichever. There are no events for a client that was removed. */
    method Handle(e: LoopEvent) returns (stop: bool)
      requires Valid()
      modifies Repr, log
      ensures log.events == old(log.events) + [e]
      ensures old(Repr) <= Repr && fresh(Repr - old(Repr)) && Valid() && Follows(old(History()), History(), [e]) && old(notices) <= notices
      ensures stop <==> e.OnPipe? && old(pipe) != [] && old(pipe)[0].TerminateLoop?
      ensures e.OnPipe? && old(pipe) != [] ==> Obeyed(old(pipe)[0], e.created)
      ensures pipe == match e
                      case OnPipe(_) => if old(pipe) == [] then [] else old(pipe)[1..]
                      case Send(id, _) => if id in old(handles) then old(pipe) + [SendBufferReceived(id)] else old(pipe)
                      case Tell(m) => old(pipe) + [m]
                      case _ => old(pipe)
      ensures e.Send? && e.id in old(handles) ==> handles == old(handles) && handles[e.id].packets == old(handles[e.id].packets) + [e.p]
      ensures e.OnListen? ==> Listened(e.accept)
      ensures e.OnTimer? ==> plannedConnections == [] && Tried(MadeOf(old(plannedConnections), e.each))
      ensures e.OnClient? ==> clients == old(clients) && (e.id in clients ==> clients[e.id] in Repr && ClientDid(clients[e.id], e.write, e.closed, e.err, e.plan))
    {
      hide Books, Footprint, Client.Ok, Entry, Follows, History, Client.Parts, Obeyed, ClientDid, Listened, Tried, Client.Unsent, Extends, MadeOf;
      ghost var before := History();
      ExtendsItself(before);
      AllOwned();
      stop := false;
      match e {
        case OnListen(accept) =>
          Listen(accept);
        case OnPipe(created) =>
          stop := PipeNotification(created);
        case OnClient(id, write, closed, err, plan) =>
          if id in clients {
            TheirParts(id);
            ClientEvent(id, write, closed, err, plan);
          }
        case OnTimer(each) =>
          RetryPlanned(each);
        case _ =>
          Elsewhere(e);
      }
      if e.OnListen? || e.OnPipe? || e.OnClient? || e.OnTimer? {
        Mute(before, History(), e);
      }
      log.events := log.events + [e];
    }

    /** What application threads and the other ends do. */
    method Elsewhere(e: LoopEvent)
      requires Valid() && (e.Send? || e.Tell? || e.PeerSends? || e.PeerReads?)
      modifies Repr
      ensures Repr == old(Repr) && Valid() && Follows(old(History()), History(), [e]) && notices == old(notices) && handles == old(handles)
      ensures e.Send? && e.id in handles ==> handles[e.id].packets == old(handles[e.id].packets) + [e.p]
      ensures pipe == match e
                      case Send(id, _) => if id in handles then old(pipe) + [SendBufferReceived(id)] else old(pipe)
                      case Tell(m) => old(pipe) + [m]
                      case _ => old(pipe)
    {
      hide Books, Footprint, Client.Ok, Entry, Follows, History;
      ghost var before := History();
      ExtendsItself(before);
      AllKnown();
      AllOwned();
      match e {
        case Send(id, p) =>
          if id in handles {
            Owned(id);
            SendTo(handles[id], p);
            return;
          }
        case Tell(m) =>
          Tell(m);
        case PeerSends(id, bytes) =>
          if id in handles {
            Owned(id);
            PeerSends(handles[id], bytes);
            return;
          }
        case PeerReads(id, count) =>
          if id in handles {
            Owned(id);
            var _ := PeerReads(handles[id], count);
            return;
          }
      }
      Mute(before, History(), e);
    }

    lemma AllKnown()
      requires Footprint()
      ensures History().Keys == handles.Keys
    {
    }

    /** runLoop, over any events. Throughout: nothing that was sent, written, read or delivered is taken back; each client's
        packets are what was written to it and what is unsent; its callbacks are frames of what was read from it; and it is
        reported as disconnected exactly once, at the very end. After an iteration nobody is left who is done for. The loop
        runs until it reads TMMTTerminateLoop, and every command is read once, in order, or is still in the pipe. */
    method RunLoop(iterations: seq<seq<LoopEvent>>) returns (ran: nat, ghost read: seq<TcpManagerMessage>)
      requires Valid() && eraseList == []
      modifies Repr, log
      ensures old(Repr) <= Repr && fresh(Repr - old(Repr)) && Valid() && old(notices) <= notices
      ensures ran <= |iterations| && Handled(old(log.events), log.events, Flat(iterations[..ran]), TerminateLoop in read)
      ensures Follows(old(History()), History(), Flat(iterations[..ran]))
      ensures ran < |iterations| ==> TerminateLoop in read
      ensures Commands(old(pipe)) + Orders(Flat(iterations[..ran])) == Commands(read) + Commands(pipe)
      ensures eraseList == [] && forall i :: i in clients ==> clients[i] == handles[i] && !clients[i].dead && clients[i].HalfClosed() && Watched(clients[i])
      ensures forall i :: i in handles ==> handles[i].id == i && handles[i].Sends() && handles[i].Receives()
      ensures forall i :: i in handles ==> Farewells(notices, i) == if i in clients then 0 else 1
      ensures forall i :: i in handles ==> Told(notices, i) == handles[i].Story() + if i in clients then [] else [Disconnected]
    {
      hide Books, Footprint, Client.Ok, Entry, Follows, History, Told, Client.Sends, Client.Receives, Client.HalfClosed, Watched, Flat, Commands, Orders, Handled;
      ghost var before := History();
      ExtendsItself(before);
      NothingYet(pipe);
      var stop := false;
      ran, read := 0, [];
      NoneYet(iterations);
      HandledNone(log.events);
      while !stop && ran < |iterations|
        invariant old(Repr) <= Repr && fresh(Repr - old(Repr)) && Valid() && old(notices) <= notices
        invariant ran <= |iterations| && eraseList == [] && (stop <==> TerminateLoop in read)
        invariant Follows(before, History(), Flat(iterations[..ran]))
        invariant Handled(old(log.events), log.events, Flat(iterations[..ran]), stop)
        invariant Commands(old(pipe)) + Orders(Flat(iterations[..ran])) == Commands(read) + Commands(pipe)
      {
        ghost var sofar, waiting, handled := History(), pipe, log.events;
        ghost var got;
        stop, got := Iterate(iterations[ran]);
        FollowsOn(before, sofar, History(), Flat(iterations[..ran]), iterations[ran]);
        FlatNext(iterations, ran);
        HandledOn(old(log.events), handled, log.events, Flat(iterations[..ran]), iterations[ran], false, stop);
        CarriedFurther(old(pipe), Flat(iterations[..ran]), read, waiting, iterations[ran], got, pipe);
        ran, read := ran + 1, read + got;
      }
      EveryClient();
      EveryStory();
    }

    /** runLoop, from one client's point of view, when nothing happens at the other end of its connection. */
    method RunLoopFor(c: Client, iterations: seq<seq<LoopEvent>>)
      requires Valid() && eraseList == [] && c.id in handles && handles[c.id] == c && LeftAlone(Flat(iterations), c.id)
      modifies Repr, log
      ensures fresh(Repr - old(Repr)) && Valid() && eraseList == [] && c.id in handles && handles[c.id] == c
      ensures this in Repr && c.Parts() <= Repr && Grew(c) && AtRest(c)
    {
      hide Told, Books, Footprint, Entry, Client.Ok, Client.Sends, Client.Receives, Client.HalfClosed, Watched, Flat, Client.Story, Farewells,
           Follows, History, Commands, Orders, Handled;
      ghost var before := History();
      Remembers(c);
      var ran, _ := RunLoop(iterations);
      FlatPart(iterations, ran);
      Remembered(c, before, Flat(iterations[..ran]));
      Owned(c.id);
    }

    /** What is remembered of a client is what it has. */
    lemma Remembers(c: Client)
      requires Footprint() && c.id in handles && handles[c.id] == c
      ensures c.id in History() && History()[c.id] == RecordOf(c)
    {
    }

    lemma Remembered(c: Client, h: map<nat, Record>, es: seq<LoopEvent>)
      requires Footprint() && c.id in h && h[c.id].client == c && LeftAlone(es, c.id) && Follows(h, History(), es)
      ensures c.id in handles && handles[c.id] == c && RecordGrew(h[c.id], RecordOf(c))
      ensures RecordOf(c).arrived == h[c.id].arrived && RecordOf(c).taken == h[c.id].taken
    {
      hide Footprint;
      AloneSays(es, c.id);
    }

    /** One iteration: the events that the selector reports together, and then the erase list. Once the loop is told to stop
        the pipe is not read any more. */
    method Iterate(events: seq<LoopEvent>) returns (stop: bool, ghost read: seq<TcpManagerMessage>)
      requires Valid()
      modifies Repr, log
      ensures old(Repr) <= Repr && fresh(Repr - old(Repr)) && Valid() && old(notices) <= notices
      ensures Follows(old(History()), History(), events) && eraseList == []
      ensures Handled(old(log.events), log.events, events, stop)
      ensures (stop <==> TerminateLoop in read) && Commands(old(pipe)) + Orders(events) == Commands(read) + Commands(pipe)
    {
      hide Books, Footprint, Client.Ok, Entry, Follows, History, Commands, Orders, Handled;
      ghost var before := History();
      ExtendsItself(before);
      NothingYet(pipe);
      stop, read := false, [];
      assert events[..0] == [];
      HandledNone(log.events);
      for k := 0 to |events|
        invariant old(Repr) <= Repr && fresh(Repr - old(Repr)) && Valid() && old(notices) <= notices
        invariant Follows(before, History(), events[..k]) && (stop <==> TerminateLoop in read)
        invariant Handled(old(log.events), log.events, events[..k], stop)
        invariant Commands(old(pipe)) + Orders(events[..k]) == Commands(read) + Commands(pipe)
      {
        ghost var sofar, waiting, handled, told := History(), pipe, log.events, stop;
        assert events[..k + 1] == events[..k] + [events[k]];
        ghost var got;
        stop, got := Dispatch(events[k], stop);
        FollowsOn(before, sofar, History(), events[..k], [events[k]]);
        HandledOn(old(log.events), handled, log.events, events[..k], [events[k]], told, stop);
        CarriedFurther(old(pipe), events[..k], read, waiting, [events[k]], got, pipe);
        read := read + got;
      }
      assert events[..|events|] == events;
      ghost var sofar := History();
      AllOwned();
      EraseDead();
      FollowsOn(before, sofar, History(), events, []);
      assert events + [] == events;
    }

    /** One of the events that the selector reports. */
    method Dispatch(e: LoopEvent, told: bool) returns (stop: bool, ghost got: seq<TcpManagerMessage>)
      requires Valid()
      modifies Repr, log
      ensures old(Repr) <= Repr && fresh(Repr - old(Repr)) && Valid() && old(notices) <= notices
      ensures Follows(old(History()), History(), [e]) && Handled(old(log.events), log.events, [e], stop)
      ensures (stop <==> told || TerminateLoop in got) && Commands(old(pipe)) + Orders([e]) == Commands(got) + Commands(pipe)
    {
      hide Books, Footprint, Client.Ok, Entry, Follows, History, Commands, Orders, Handled, Obeyed, ClientDid, Tried;
      stop, got := told, [];
      if told && e.OnPipe? {
        ghost var before := History();
        ExtendsItself(before);
        Mute(before, before, e);
        HandledSkip(log.events, e);
      } else {
        var s := Handle(e);
        stop := told || s;
        got := if e.OnPipe? && old(pipe) != [] then [old(pipe)[0]] else [];
        assert old(pipe) != [] ==> old(pipe) == [old(pipe)[0]] + old(pipe)[1..];
        HandledOne(old(log.events), e, stop);
      }
      PipedOne(e, old(pipe), got, pipe);
    }

    lemma EveryClient()
      requires Valid() && eraseList == []
      ensures forall i :: i in clients ==> i in handles && clients[i] == handles[i] && !clients[i].dead && clients[i].HalfClosed() && Watched(clients[i])
    {
      hide Told, Client.Sends, Client.Receives, Client.HalfClosed;
      assert forall i :: i in clients ==> i in handles && Entry(i) && handles[i].Ok();
    }

    lemma EveryStory()
      requires Valid()
      ensures forall i :: i in handles ==> handles[i].id == i && handles[i].Sends() && handles[i].Receives()
      ensures forall i :: i in handles ==> Farewells(notices, i) == if i in clients then 0 else 1
      ensures forall i :: i in handles ==> Told(notices, i) == handles[i].Story() + if i in clients then [] else [Disconnected]
    {
      hide Told, Client.Sends, Client.Receives, Client.HalfClosed;
      forall i | i in handles
        ensures Farewells(notices, i) == if i in clients then 0 else 1
        ensures Told(notices, i) == handles[i].Story() + if i in clients then [] else [Disconnected]
      {
        assert Entry(i) && handles[i].Ok();
        OneFarewell(handles[i]);
      }
    }

    lemma OneFarewell(c: Client)
      requires c.Staged()
      ensures multiset(c.Story())[Disconnected] == 0 && multiset(c.Story() + [Disconnected])[Disconnected] == 1
    {
    }
  }

  lemma TailNoDup(q: seq<Client>)
    requires q != [] && NoDup(q)
    ensures NoDup(q[1..]) && q[0] !in q[1..]
  {
  }
}
