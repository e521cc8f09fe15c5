/** The receiving half of a connection: readEvent cuts whatever chunks arrive back into packets. */
module Receive {
  import opened Basics
  import opened Packets
  import opened Rounds

  /** One direction of a TCP connection: the bytes that were accepted and not yet read, in order. */
  class Socket {
    var wire: seq<Byte>
    ghost var accepted: seq<Byte>
    ghost var consumed: seq<Byte>

    ghost predicate Valid()
      reads this
    {
      accepted == consumed + wire
    }

    constructor ()
      ensures Valid() && accepted == [] && consumed == []
    {
      wire, accepted, consumed := [], [], [];
    }

    /** read(2) into buf; the result is the number of bytes, or -1 with a reason. */
    method Read(buf: array<Byte>, at: nat, want: nat, o: Outcome) returns (got: int)
      requires Valid() && at + want <= buf.Length
      modifies this, buf
      ensures Valid() && accepted == old(accepted) && -1 <= got <= want
      ensures got == if o.Moved? then Moves(o, Least(want, |old(wire)|)) else -1
      ensures var k: nat := if got < 0 then 0 else got;
        && at + k <= buf.Length && k <= |old(wire)| && buf[at..at + k] == old(wire)[..k] && wire == old(wire)[k..]
        && consumed == old(consumed) + old(wire)[..k] && buf[..at] == old(buf[..at]) && buf[at + k..] == old(buf[at + k..])
    {
      if !o.Moved? {
        assert buf[at..at + 0] == [];
        return -1;
      }
      var k := Least(o.n, Least(want, |wire|));
      CopyInto(buf, at, k);
      assert wire == wire[..k] + wire[k..];
      consumed := consumed + wire[..k];
      wire := wire[k..];
      got := k;
    }

    method CopyInto(buf: array<Byte>, at: nat, k: nat)
      requires at + k <= buf.Length && k <= |wire|
      modifies buf
      ensures buf[at..at + k] == wire[..k] && buf[..at] == old(buf[..at]) && buf[at + k..] == old(buf[at + k..])
    {
      for i := 0 to k
        invariant buf[..at] == old(buf[..at]) && buf[at + k..] == old(buf[at + k..])
        invariant forall j: nat :: j < i ==> buf[at + j] == wire[j]
      {
        buf[at + i] := wire[i];
      }
    }

    /** write(2) */
    method Write(data: seq<Byte>, o: Outcome) returns (written: int)
      requires Valid()
      modifies this
      ensures Valid() && consumed == old(consumed)
      ensures written == if o.Moved? then Least(o.n, |data|) else -1
      ensures accepted == old(accepted) + data[..if written < 0 then 0 else written]
    {
      if !o.Moved? {
        return -1;
      }
      var k := Least(o.n, |data|);
      wire := wire + data[..k];
      accepted := accepted + data[..k];
      written := k;
    }
  }

  /** A call of the receive callback: the header, and the whole receive buffer as it is. */
  datatype Callback = Callback(header: Header, data: seq<Byte>)

  predicate CallbackOk(c: Callback) {
    |c.data| == MAX_SIZE && c.header.payloadSize <= MAX_PAYLOAD
  }

  /** The frame that a callback is about. */
  function Delivered(c: Callback): Frame
    requires CallbackOk(c)
  {
    Frame(c.header.typ, c.data[HEADER_SIZE..HEADER_SIZE + c.header.payloadSize])
  }

  function AllDelivered(cs: seq<Callback>): (fs: seq<Frame>)
    requires forall c :: c in cs ==> CallbackOk(c)
    ensures |fs| == |cs|
    ensures forall i: nat :: i < |cs| ==> cs[i] in cs && fs[i] == Delivered(cs[i])
  {
    if cs == [] then [] else AllDelivered(cs[..|cs| - 1]) + [Delivered(cs[|cs| - 1])]
  }

  lemma DeliverOne(cs: seq<Callback>, c: Callback)
    requires CallbackOk(c) && forall x :: x in cs ==> CallbackOk(x)
    ensures (forall x :: x in cs + [c] ==> CallbackOk(x)) && AllDelivered(cs + [c]) == AllDelivered(cs) + [Delivered(c)]
  {
    assert (cs + [c])[..|cs|] == cs;
  }

  class TcpReceiveBuffer {
    const data: array<Byte>
    const rrRounds: nat
    var received: nat
    var header: Header
    var callbacks: seq<Callback>

    /** Between two calls: a partial frame is in the buffer, with its header parsed once it is there. */
    ghost predicate Valid()
      reads this, data
    {
      && data.Length == MAX_SIZE
      && (forall c :: c in callbacks ==> CallbackOk(c))
      && (received >= HEADER_SIZE ==>
            && received <= MAX_SIZE && header == ParseHeader(data[..received])
            && header.payloadSize <= MAX_PAYLOAD && received < HEADER_SIZE + header.payloadSize)
    }

    /** The bytes read so far are the frames called back and what is in the buffer. */
    ghost predicate InStep(consumed: seq<Byte>)
      requires received <= data.Length && forall c :: c in callbacks ==> CallbackOk(c)
      reads this, data
    {
      var (fs, rest) := Split(data[..received]);
      Split(consumed) == (AllDelivered(callbacks) + fs, rest)
    }

    constructor (rrRounds: nat)
      ensures Valid() && InStep([]) && received == 0 && callbacks == [] && fresh(data) && this.rrRounds == rrRounds
    {
      data := new Byte[MAX_SIZE](_ => 0);
      this.rrRounds := rrRounds;
      received, header, callbacks := 0, Header(0, 0), [];
      new;
      assert data[..0] == [];
      SplitEmpty();
      assert AllDelivered([]) + [] == [];
    }

    /** One read and its checks, as they occur twice in readEvent. */
    method Fill(socket: Socket, want: nat, closing: bool, o: Outcome) returns (stop: Option<Errno>)
      requires socket.Valid() && data.Length == MAX_SIZE && 0 < want && received + want <= MAX_SIZE
      requires (forall c :: c in callbacks ==> CallbackOk(c)) && InStep(socket.consumed)
      modifies this`received, data, socket
      ensures socket.Valid() && socket.accepted == old(socket.accepted)
      ensures Took(socket, ReadOnce(o, want, |old(socket.wire)|, closing), stop)
      ensures stop.None? ==> Filled(old(data[..received]), old(socket.wire), |old(socket.wire)| - |socket.wire|) && InStep(socket.consumed)
      ensures stop.Some? ==> received == old(received) && data[..received] == old(data[..received])
    {
      hide Split, AllDelivered, CallbackOk, Socket.Valid;
      var got := socket.Read(data, received, want, o);
      if got == -1 && !o.WouldBlock? {
        return Some(o.e);
      } else if got < want && closing {
        return Some(EPIPE);
      } else if got > 0 {
        ghost var chunk := data[received..received + got];
        assert data[..received + got] == data[..received] + chunk;
        assert data[..received] == old(data[..received]);
        FillSteps(old(data[..received]), chunk, old(socket.consumed), AllDelivered(callbacks));
        received := received + got;
      }
      assert got <= 0 ==> socket.consumed == old(socket.consumed);
      stop := None;
    }

    /** The bytes that were read have left the wire, and this is what ended reading, if anything did. */
    twostate predicate Took(socket: Socket, new r: Reading, new stop: Option<Errno>)
      reads socket
    {
      Passed(old(socket.consumed), old(socket.wire), socket.consumed, socket.wire, r.got) && stop == r.stop
    }

    /** The k bytes that were read are behind what was in the buffer. */
    ghost predicate Filled(before: seq<Byte>, wire: seq<Byte>, k: int)
      reads this, data
    {
      0 <= k <= |wire| && received == |before| + k && received <= data.Length && data[..received] == before + wire[..k]
    }

    static lemma FillSteps(leftover: seq<Byte>, chunk: seq<Byte>, consumed: seq<Byte>, done: seq<Frame>)
      requires Split(consumed) == (done + Split(leftover).0, Split(leftover).1)
      ensures Split(consumed + chunk) == (done + Split(leftover + chunk).0, Split(leftover + chunk).1)
    {
      hide Split;
      SplitMore(consumed, chunk);
      SplitMore(leftover, chunk);
      var fs := Split(leftover).0;
      var gs := Split(Split(leftover).1 + chunk).0;
      assert done + fs + gs == done + (fs + gs);
    }

    /** What a call of readEvent leaves behind: callbacks for frames of the stream only, and without a stop for all
        complete frames read so far. */
    ghost predicate Progress(socket: Socket, stop: Option<Errno>, accepted: seq<Byte>, consumed: seq<Byte>, before: seq<Callback>)
      reads this, data, socket
    {
      && socket.Valid() && socket.accepted == accepted && consumed <= socket.consumed
      && data.Length == MAX_SIZE && before <= callbacks && (forall c :: c in callbacks ==> CallbackOk(c))
      && (stop.None? ==> Valid() && InStep(socket.consumed))
      && AllDelivered(callbacks) <= Split(socket.consumed).0
    }

    /** callReceive, with the buffer empty again. */
    method Deliver(ghost consumed: seq<Byte>)
      requires data.Length == MAX_SIZE && HEADER_SIZE <= received <= MAX_SIZE && (forall c :: c in callbacks ==> CallbackOk(c))
      requires header == ParseHeader(data[..received]) && Complete(data[..received]) && received == FrameLength(data[..received])
      requires InStep(consumed)
      modifies this`received, this`callbacks
      ensures Valid() && InStep(consumed) && received == 0 && old(callbacks) <= callbacks && |callbacks| == |old(callbacks)| + 1
    {
      hide Split, AllDelivered, ParseHeader, Complete, FirstFrame, FrameLength;
      ghost var b := data[..received];
      var c := Callback(header, data[..]);
      DeliveredIsFirst(b, c);
      DeliverOne(callbacks, c);
      WholeFrame(b);
      SplitEmpty();
      ghost var done := AllDelivered(callbacks);
      assert done + [Delivered(c)] == done + [Delivered(c)] + [];
      callbacks := callbacks + [c];
      received := 0;
      assert data[..0] == [];
    }

    static lemma DeliveredIsFirst(b: seq<Byte>, c: Callback)
      requires Complete(b) && |b| == FrameLength(b) && b <= c.data && |c.data| == MAX_SIZE && c.header == ParseHeader(b)
      ensures CallbackOk(c) && FirstFrame(b) == Delivered(c)
    {
      assert b[HEADER_SIZE..|b|] == c.data[HEADER_SIZE..|b|];
    }

    static lemma WholeFrame(b: seq<Byte>)
      requires Complete(b) && |b| == FrameLength(b)
      ensures Split(b) == ([FirstFrame(b)], [])
    {
      assert b[FrameLength(b)..] == [];
      SplitEmpty();
      assert [FirstFrame(b)] + [] == [FirstFrame(b)];
    }

    lemma InStepDelivers(consumed: seq<Byte>)
      requires received <= data.Length && (forall c :: c in callbacks ==> CallbackOk(c)) && InStep(consumed)
      ensures AllDelivered(callbacks) <= Split(consumed).0
    {
    }

    /** Between two calls the frames of the stream are exactly the frames called back, and no complete frame is held back. */
    lemma NothingLeft(consumed: seq<Byte>)
      requires Valid() && InStep(consumed)
      ensures Split(consumed) == (AllDelivered(callbacks), data[..received]) && !Complete(data[..received])
    {
      SplitLeavesNone(consumed);
      assert AllDelivered(callbacks) + [] == AllDelivered(callbacks);
    }

    /** The header part of readEvent. */
    method ReadHeader(socket: Socket, closing: bool, o: Outcome) returns (stop: Option<Errno>)
      requires Valid() && socket.Valid() && InStep(socket.consumed) && received < HEADER_SIZE
      modifies this`received, this`header, data, socket
      ensures socket.Valid() && socket.accepted == old(socket.accepted) && old(socket.consumed) <= socket.consumed
      ensures Took(socket, ReadOnce(o, HEADER_SIZE - old(received), |old(socket.wire)|, closing), stop)
      ensures stop.None? ==> Filled(old(data[..received]), old(socket.wire), |old(socket.wire)| - |socket.wire|)
      ensures received <= HEADER_SIZE && AllDelivered(callbacks) <= Split(socket.consumed).0
      ensures stop.None? ==> InStep(socket.consumed)
      ensures stop.None? && received == HEADER_SIZE ==> header == ParseHeader(data[..received])
    {
      hide Split;
      ghost var before := socket.consumed;
      InStepDelivers(before);
      stop := Fill(socket, HEADER_SIZE - received, closing, o);
      PrefixSplits(before, socket.consumed);
      if stop.None? && received >= HEADER_SIZE {
        header := ParseHeader(data[..received]);
      }
    }

    /** A partial frame is in the buffer. */
    lemma PartialThere()
      requires Valid()
      ensures received <= data.Length && Partial(data[..received])
      ensures received >= HEADER_SIZE ==> header == ParseHeader(data[..received]) && FrameLength(data[..received]) == HEADER_SIZE + header.payloadSize
    {
    }

    /** readEvent: at most one header and one payload, then on to the next packet while there are rounds left. */
    method ReadEvent(socket: Socket, closing: bool, plan: seq<Outcome>, rounds: nat) returns (stop: Option<Errno>)
      requires Valid() && socket.Valid() && InStep(socket.consumed) && rounds <= rrRounds
      modifies this, data, socket
      ensures Progress(socket, stop, old(socket.accepted), old(socket.consumed), old(callbacks))
      ensures Partial(old(data[..received])) && Took(socket, ReadRun(old(data[..received]), old(socket.wire), plan, closing, rrRounds - rounds), stop)
      decreases rrRounds - rounds, 1
    {
      hide Split, InStep, Complete, ParseHeader, AllDelivered, CallbackOk, BodyRun, ReadRun, Passed, Then, FrameLength;
      InStepDelivers(socket.consumed);
      PartialThere();
      if received >= HEADER_SIZE {
        ReadBodyOnly(data[..received], socket.wire, plan, closing, rrRounds - rounds);
        stop := ReadBody(socket, closing, plan, rounds);
        return;
      }
      var o, rest := NextOutcome(plan);
      stop := ReadHeader(socket, closing, o);
      ghost var consumed, wire, b := socket.consumed, socket.wire, data[..received];
      if stop.Some? || received < HEADER_SIZE {
        ReadShort(old(data[..received]), old(socket.wire), plan, closing, rrRounds - rounds, old(socket.consumed), wire, consumed);
        return;
      }
      stop := ReadBody(socket, closing, rest, rounds);
      ReadOn(old(data[..received]), old(socket.wire), plan, closing, rrRounds - rounds,
             old(socket.consumed), b, wire, consumed, socket.wire, socket.consumed);
    }

    /** readEvent once the header is there. */
    method ReadBody(socket: Socket, closing: bool, plan: seq<Outcome>, rounds: nat) returns (stop: Option<Errno>)
      requires data.Length == MAX_SIZE && HEADER_SIZE <= received <= MAX_SIZE && (forall c :: c in callbacks ==> CallbackOk(c))
      requires header == ParseHeader(data[..received]) && (received == HEADER_SIZE || Valid())
      requires socket.Valid() && InStep(socket.consumed) && AllDelivered(callbacks) <= Split(socket.consumed).0 && rounds <= rrRounds
      modifies this, data, socket
      ensures Progress(socket, stop, old(socket.accepted), old(socket.consumed), old(callbacks))
      ensures Partial(old(data[..received])) || old(received) == HEADER_SIZE
      ensures Took(socket, BodyRun(old(data[..received]), old(socket.wire), plan, closing, rrRounds - rounds), stop)
      decreases rrRounds - rounds, 0
    {
      hide Split, InStep, Complete, ParseHeader, AllDelivered, CallbackOk, BodyRun, NextRun, Passed, Then;
      ghost var b := data[..received];
      BodyEnds(b, socket.wire, plan, closing, rrRounds - rounds);
      if header.payloadSize == 0 {
        FrameThere();
        Deliver(socket.consumed);
        stop := NextRound(socket, closing, plan, rounds);
        return;
      }
      if header.payloadSize > MAX_PAYLOAD {
        PassedNothing(socket.consumed, socket.wire);
        return Some(EYAICINVPACKET);
      }
      var o, rest := NextOutcome(plan);
      stop := ReadPayload(socket, closing, o);
      ghost var consumed, wire := socket.consumed, socket.wire;
      if stop.Some? || received != 0 {
        BodyShort(b, old(socket.wire), plan, closing, rrRounds - rounds, old(socket.consumed), wire, consumed);
        return;
      }
      stop := NextRound(socket, closing, rest, rounds);
      BodyOn(b, old(socket.wire), plan, closing, rrRounds - rounds, old(socket.consumed), wire, consumed, socket.wire, socket.consumed);
    }

    /** A packet has been called back: on to the next, while there are rounds left. */
    method NextRound(socket: Socket, closing: bool, plan: seq<Outcome>, rounds: nat) returns (stop: Option<Errno>)
      requires Valid() && socket.Valid() && InStep(socket.consumed) && received == 0 && rounds <= rrRounds
      modifies this, data, socket
      ensures Progress(socket, stop, old(socket.accepted), old(socket.consumed), old(callbacks))
      ensures Took(socket, NextRun(old(socket.wire), plan, closing, rrRounds - rounds), stop)
      decreases rrRounds - rounds, 0, 0
    {
      hide Split, InStep, Complete, ParseHeader, AllDelivered, CallbackOk, ReadRun;
      InStepDelivers(socket.consumed);
      stop := None;
      if rounds < rrRounds {
        assert data[..received] == [];
        stop := ReadEvent(socket, closing, plan, rounds + 1);
      }
    }

    /** The payload part of readEvent; the buffer is empty afterwards exactly when a packet was called back. */
    method ReadPayload(socket: Socket, closing: bool, o: Outcome) returns (stop: Option<Errno>)
      requires Valid() && socket.Valid() && InStep(socket.consumed) && received >= HEADER_SIZE
      modifies this, data, socket
      ensures Progress(socket, stop, old(socket.accepted), old(socket.consumed), old(callbacks))
      ensures Took(socket, ReadOnce(o, old(HEADER_SIZE + header.payloadSize - received), |old(socket.wire)|, closing), stop)
      ensures stop.None? && received == 0 ==> |callbacks| == |old(callbacks)| + 1
      ensures stop.None? && received != 0 ==> callbacks == old(callbacks)
      ensures stop.None? ==> (received == 0 <==> old(received) + |old(socket.wire)| - |socket.wire| == old(HEADER_SIZE + header.payloadSize))
    {
      hide Split, InStep, Complete, ParseHeader, AllDelivered, CallbackOk;
      ghost var before := socket.consumed;
      ghost var head := data[..received];
      InStepDelivers(before);
      stop := Fill(socket, header.payloadSize - (received - HEADER_SIZE), closing, o);
      PrefixSplits(before, socket.consumed);
      SameHeader(head, data[..received]);
      if stop.Some? {
        return;
      }
      if received >= header.payloadSize + HEADER_SIZE {
        FrameThere();
        Deliver(socket.consumed);
      }
      InStepDelivers(socket.consumed);
    }

    static lemma SameHeader(b: seq<Byte>, c: seq<Byte>)
      requires HEADER_SIZE <= |b| && b <= c
      ensures ParseHeader(c) == ParseHeader(b)
    {
      assert c[2..6] == b[2..6];
    }

    lemma FrameThere()
      requires data.Length == MAX_SIZE && HEADER_SIZE <= received <= MAX_SIZE && header == ParseHeader(data[..received])
      requires header.payloadSize <= MAX_PAYLOAD && received == HEADER_SIZE + header.payloadSize
      ensures Complete(data[..received]) && received == FrameLength(data[..received])
    {
    }
  }

  /** The outcome of the next system call; when the plan has run out there is nothing more to do now. */
  method NextOutcome(plan: seq<Outcome>) returns (o: Outcome, rest: seq<Outcome>)
    ensures o == Answer(plan) && rest == Later(plan)
  {
    if plan == [] {
      return WouldBlock, [];
    }
    return plan[0], plan[1..];
  }
}
