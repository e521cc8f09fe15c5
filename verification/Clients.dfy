/** A client of the TCP manager: its socket, its send queue, its receive buffer, and how far its life has gone. */
module Clients {
  import opened Basics
  import C = Codec
  import opened Packets
  import opened Rounds
  import opened Receive

  datatype TcpClientState = Connected | Disconnecting | WritingClosed | Disconnected | FailedToEstablish

  const EYAICDISCONNECT: Errno := 100000

  datatype TcpSendBuffer = TcpSendBuffer(sent: nat, data: seq<Byte>)

  function Remaining(b: TcpSendBuffer): seq<Byte> {
    if b.sent <= |b.data| then b.data[b.sent..] else []
  }

  function Flatten(q: seq<TcpSendBuffer>): seq<Byte> {
    if q == [] then [] else Remaining(q[0]) + Flatten(q[1..])
  }

  lemma {:induction false} FlattenPush(q: seq<TcpSendBuffer>, b: TcpSendBuffer)
    ensures Flatten(q + [b]) == Flatten(q) + Remaining(b)
  {
    if q == [] {
      assert [b][1..] == [] && [] + [b] == [b];
      assert Flatten([b]) == Remaining(b) + [];
    } else {
      FlattenPush(q[1..], b);
      assert (q + [b])[1..] == q[1..] + [b];
      C.Regroup(Remaining(q[0]), Flatten(q[1..]), Remaining(b));
    }
  }

  /** Buffers in the queue are not empty: every packet has a header. */
  predicate BuffersOk(current: Option<TcpSendBuffer>, queue: seq<TcpSendBuffer>) {
    && (current.Some? ==> current.value.sent <= |current.value.data|)
    && forall b :: b in queue ==> b.sent < |b.data|
  }

  /** The bytes that were attached and not yet written, in order. */
  function UnsentIn(current: Option<TcpSendBuffer>, queue: seq<TcpSendBuffer>): seq<Byte> {
    (if current.Some? then Remaining(current.value) else []) + Flatten(queue)
  }

  function Lengths(queue: seq<TcpSendBuffer>): (r: seq<nat>)
    requires forall b :: b in queue ==> b.sent < |b.data|
    ensures |r| == |queue|
  {
    seq(|queue|, i requires 0 <= i < |queue| => assert queue[i] in queue; |queue[i].data| - queue[i].sent)
  }

  /** The lengths of the buffers with bytes left, in order. */
  function PendingIn(current: Option<TcpSendBuffer>, queue: seq<TcpSendBuffer>): seq<nat>
    requires BuffersOk(current, queue)
  {
    (if current.Some? && current.value.sent < |current.value.data| then [|current.value.data| - current.value.sent] else []) + Lengths(queue)
  }

  lemma LengthsTail(queue: seq<TcpSendBuffer>)
    requires queue != [] && forall b :: b in queue ==> b.sent < |b.data|
    ensures forall b :: b in queue[1..] ==> b in queue
    ensures Lengths(queue) == [|queue[0].data| - queue[0].sent] + Lengths(queue[1..]) && queue[0].sent < |queue[0].data|
  {
    assert queue[0] in queue;
  }

  lemma {:induction false} LengthsSum(queue: seq<TcpSendBuffer>)
    requires forall b :: b in queue ==> b.sent < |b.data|
    ensures Sum(Lengths(queue)) == |Flatten(queue)| && Positive(Lengths(queue))
  {
    if queue != [] {
      LengthsTail(queue);
      LengthsSum(queue[1..]);
      assert Lengths(queue)[1..] == Lengths(queue[1..]);
      assert forall i: nat :: 0 < i < |queue| ==> Lengths(queue)[i] == Lengths(queue)[1..][i - 1];
    }
  }

  /** The pending lengths add up to what is unsent. */
  lemma PendingSum(current: Option<TcpSendBuffer>, queue: seq<TcpSendBuffer>)
    requires BuffersOk(current, queue)
    ensures Sum(PendingIn(current, queue)) == |UnsentIn(current, queue)| && Positive(PendingIn(current, queue))
    ensures PendingIn(current, queue) == [] <==> UnsentIn(current, queue) == []
  {
    hide Lengths;
    LengthsSum(queue);
    if current.Some? && current.value.sent < |current.value.data| {
      assert PendingIn(current, queue)[1..] == Lengths(queue);
    } else {
      assert PendingIn(current, queue) == Lengths(queue);
    }
  }

  /** More of a buffer has been sent: the bytes. */
  lemma SendingBytes(b: TcpSendBuffer, n: nat, queue: seq<TcpSendBuffer>)
    requires b.sent + n <= |b.data|
    ensures n <= |Remaining(b)| && UnsentIn(Some(b), queue) == Remaining(b)[..n] + UnsentIn(Some(b.(sent := b.sent + n)), queue)
  {
    hide Flatten;
    assert Remaining(b) == Remaining(b)[..n] + Remaining(b.(sent := b.sent + n));
    C.Regroup(Remaining(b)[..n], Remaining(b.(sent := b.sent + n)), Flatten(queue));
  }

  /** And the lengths. */
  lemma SendingLengths(b: TcpSendBuffer, n: nat, queue: seq<TcpSendBuffer>)
    requires BuffersOk(Some(b), queue) && b.sent < |b.data| && b.sent + n <= |b.data|
    ensures var b' := b.(sent := b.sent + n);
      && BuffersOk(Some(b'), queue) && PendingIn(Some(b), queue) != [] && PendingIn(Some(b), queue)[0] >= n
      && PendingIn(Some(b'), queue) == Left(PendingIn(Some(b), queue), n)
  {
    hide Lengths;
    var length := |b.data| - b.sent;
    assert PendingIn(Some(b), queue) == [length] + Lengths(queue);
    assert ([length] + Lengths(queue))[1..] == Lengths(queue);
  }

  /** What the selector watches a socket for. */
  datatype Interest = Interest(read: bool, write: bool)

  class Client {
    const id: nat
    const incoming: Socket
    const outgoing: Socket
    const receiveBuffer: TcpReceiveBuffer
    var state: TcpClientState
    var readError: nat
    var writeError: nat
    var connectError: nat
    var dead: bool
    var sendBuffer: Option<TcpSendBuffer>
    var sendBufferQueue: seq<TcpSendBuffer>
    var interest: Interest
    /** The packets that were sent to this client so far. */
    ghost var packets: seq<CorePacket>
    /** How the attempt to connect was reported, if it was. */
    ghost var reported: Option<TcpClientState>

    constructor (id: nat, rrRounds: nat, state: TcpClientState, interest: Interest)
      ensures this.id == id && this.state == state && this.interest == interest && receiveBuffer.rrRounds == rrRounds
      ensures readError == writeError == connectError == 0 && !dead && Unsent() == [] && packets == [] && reported == None
      ensures receiveBuffer.callbacks == [] && outgoing.accepted == incoming.accepted == []
      ensures Ok() && fresh(Parts())
    {
      hide Split, AllDelivered, Stream, BuffersOk, UnsentIn, TcpReceiveBuffer.Valid, TcpReceiveBuffer.InStep, CallbackOk;
      this.id, this.state, this.interest := id, state, interest;
      incoming := new Socket();
      outgoing := new Socket();
      receiveBuffer := new TcpReceiveBuffer(rrRounds);
      readError, writeError, connectError, dead := 0, 0, 0, false;
      sendBuffer, sendBufferQueue := None, [];
      packets, reported := [], None;
      new;
      Fresh();
    }

    lemma Fresh()
      requires sendBuffer == None && sendBufferQueue == [] && receiveBuffer.callbacks == []
      ensures BuffersOk(sendBuffer, sendBufferQueue) && Unsent() == [] && Stream([]) == [] && AllDelivered([]) == []
      ensures forall c :: c in receiveBuffer.callbacks ==> CallbackOk(c)
    {
    }

    /** The objects that belong to this client alone. */
    ghost function Parts(): set<object> {
      {this, incoming, outgoing, receiveBuffer, receiveBuffer.data}
    }

    ghost predicate QueueOk()
      reads this
    {
      BuffersOk(sendBuffer, sendBufferQueue)
    }

    ghost function Unsent(): seq<Byte>
      reads this
    {
      UnsentIn(sendBuffer, sendBufferQueue)
    }

    ghost function Pending(): seq<nat>
      requires QueueOk()
      reads this
    {
      PendingIn(sendBuffer, sendBufferQueue)
    }

    lemma PendingAdds()
      requires QueueOk()
      ensures Sum(Pending()) == |Unsent()| && (Pending() == [] <==> Unsent() == [])
    {
      hide PendingIn, UnsentIn, BuffersOk;
      PendingSum(sendBuffer, sendBufferQueue);
    }

    /** What was written and what is still unsent are the packets sent to this client. */
    ghost predicate Sends()
      reads this, outgoing
    {
      QueueOk() && outgoing.Valid() && Stream(packets) == outgoing.accepted + Unsent()
    }

    /** The callbacks are frames of the bytes read; while reading goes on they are all of them. */
    ghost predicate Receives()
      reads this, incoming, receiveBuffer, receiveBuffer.data
    {
      && incoming.Valid() && receiveBuffer.data.Length == MAX_SIZE
      && (forall c :: c in receiveBuffer.callbacks ==> CallbackOk(c))
      && AllDelivered(receiveBuffer.callbacks) <= Split(incoming.consumed).0
      && (readError == 0 ==> receiveBuffer.Valid() && receiveBuffer.InStep(incoming.consumed))
    }

    /** A live client whose read side has failed has something left to write and is watched for writing. */
    ghost predicate HalfClosed()
      reads this
    {
      !dead && readError != 0 ==> writeError == 0 && Unsent() != [] && interest.write
    }

    /** Nothing is reported, sent or read before the connection is up. */
    ghost predicate Staged()
      reads this
    {
      && (state.Disconnected? ==> readError == 0 && (!dead ==> reported.None?))
      && (reported.None? || reported == Some(Connected) || (reported == Some(FailedToEstablish) && dead && state.Disconnected?))
    }

    ghost predicate Ok()
      reads this, incoming, outgoing, receiveBuffer, receiveBuffer.data
    {
      incoming != outgoing && Sends() && Receives() && HalfClosed() && Staged()
    }

    lemma Halves()
      requires Ok()
      ensures Sends() && Receives() && HalfClosed() && Staged() && incoming != outgoing && incoming.Valid() && outgoing.Valid() && QueueOk()
    {
      hide UnsentIn, BuffersOk, Stream, Split, AllDelivered, CallbackOk, TcpReceiveBuffer.InStep, TcpReceiveBuffer.Valid;
    }

    /** The receiving side is as it was. */
    twostate lemma ReceivesStill()
      requires old(Receives()) && readError == old(readError) && unchanged(incoming) && unchanged(receiveBuffer) && unchanged(receiveBuffer.data)
      ensures Receives()
    {
      hide Split, AllDelivered, CallbackOk, TcpReceiveBuffer.InStep, TcpReceiveBuffer.Valid;
    }

    twostate lemma QueueStill()
      requires sendBuffer == old(sendBuffer) && sendBufferQueue == old(sendBufferQueue)
      ensures Unsent() == old(Unsent()) && QueueOk() == old(QueueOk()) && (QueueOk() ==> Pending() == old(Pending()))
    {
      hide UnsentIn, BuffersOk, PendingIn;
    }

    /** The sending side is as it was. */
    twostate lemma SendsStill()
      requires old(Sends()) && unchanged(outgoing) && packets == old(packets)
      requires sendBuffer == old(sendBuffer) && sendBufferQueue == old(sendBufferQueue)
      ensures Sends() && Unsent() == old(Unsent())
    {
      hide UnsentIn, BuffersOk, Stream;
    }

    /** The client-state callbacks made about this client, up to the last one. */
    ghost function Story(): seq<TcpClientState>
      reads this
    {
      (if reported.Some? then [reported.value] else []) + if readError != 0 then [Disconnecting] else []
    }

    method AttachSendBuffer(b: TcpSendBuffer)
      requires QueueOk() && b.sent < |b.data|
      modifies this`sendBufferQueue
      ensures QueueOk() && Unsent() == old(Unsent()) + Remaining(b)
    {
      hide Flatten, Remaining;
      FlattenPush(sendBufferQueue, b);
      ghost var front := if sendBuffer.Some? then Remaining(sendBuffer.value) else [];
      C.Regroup(front, Flatten(sendBufferQueue), Remaining(b));
      sendBufferQueue := sendBufferQueue + [b];
    }

    /** sendBuffer: the buffer to write from next, or null. */
    method NextSendBuffer() returns (b: Option<TcpSendBuffer>)
      requires QueueOk()
      modifies this`sendBuffer, this`sendBufferQueue
      ensures QueueOk() && Unsent() == old(Unsent()) && Pending() == old(Pending())
      ensures b.Some? <==> writeError == 0 && Unsent() != []
      ensures b.Some? ==> sendBuffer == b && b.value.sent < |b.value.data|
      ensures b.Some? ==> Pending() != [] && Pending()[0] == |b.value.data| - b.value.sent
    {
      hide Lengths;
      if writeError != 0 {
        return None;
      }
      if sendBuffer.Some? {
        if |sendBuffer.value.data| > sendBuffer.value.sent {
          assert Remaining(sendBuffer.value) != [];
          return sendBuffer;
        }
        assert Remaining(sendBuffer.value) == [];
        sendBuffer := None;
      }
      if sendBufferQueue != [] {
        var b0 := sendBufferQueue[0];
        LengthsTail(sendBufferQueue);
        assert Remaining(b0) != [];
        sendBuffer := Some(b0);
        sendBufferQueue := sendBufferQueue[1..];
      }
      return sendBuffer;
    }

    /** buffer->sent += written */
    method Advance(written: nat)
      requires QueueOk() && sendBuffer.Some? && sendBuffer.value.sent < |sendBuffer.value.data|
      requires sendBuffer.value.sent + written <= |sendBuffer.value.data|
      modifies this`sendBuffer
      ensures QueueOk() && old(Unsent()) == old(Remaining(sendBuffer.value))[..written] + Unsent()
      ensures Pending() == Left(old(Pending()), written)
    {
      hide BuffersOk, UnsentIn, PendingIn, Remaining, Left;
      assert sendBuffer == Some(sendBuffer.value);
      SendingBytes(sendBuffer.value, written, sendBufferQueue);
      SendingLengths(sendBuffer.value, written, sendBufferQueue);
      sendBuffer := Some(sendBuffer.value.(sent := sendBuffer.value.sent + written));
    }

    /** write(2) on the buffer at hand */
    method WriteFrom(buffer: TcpSendBuffer, o: Outcome) returns (failed: Option<Errno>)
      requires QueueOk() && outgoing.Valid() && sendBuffer == Some(buffer) && buffer.sent < |buffer.data|
      requires Pending() != [] && Pending()[0] == |buffer.data| - buffer.sent
      modifies this`sendBuffer, outgoing
      ensures QueueOk() && outgoing.Valid() && outgoing.consumed == old(outgoing.consumed)
      ensures outgoing.accepted + Unsent() == old(outgoing.accepted + Unsent()) && old(outgoing.accepted) <= outgoing.accepted
      ensures failed == if o.Failed? then Some(o.e) else None
      ensures var k := Moves(o, old(Pending())[0]);
        Passed(old(outgoing.accepted), old(Unsent()), outgoing.accepted, Unsent(), k) && Pending() == Left(old(Pending()), k)
    {
      hide BuffersOk, UnsentIn, PendingIn;
      assert buffer.sent <= |buffer.data| by { CurrentOk(); }
      LeftNone(Pending());
      var written := outgoing.Write(Remaining(buffer), o);
      if written == -1 {
        return if o.WouldBlock? then None else Some(o.e);
      }
      ghost var part := Remaining(buffer)[..written];
      Advance(written);
      assert old(outgoing.accepted) + part + Unsent() == old(outgoing.accepted) + (part + Unsent());
      failed := None;
    }

    lemma CurrentOk()
      requires QueueOk() && sendBuffer.Some?
      ensures sendBuffer.value.sent <= |sendBuffer.value.data|
    {
    }

    /** sendTo, without the message to the loop: the packet is encoded and queued. */
    method Enqueue(p: CorePacket)
      requires Sends() && Receives()
      modifies this`sendBufferQueue, this`packets
      ensures Sends() && Receives() && packets == old(packets) + [p] && Unsent() == old(Unsent()) + EncodePacket(p)
    {
      hide Receives, BuffersOk, UnsentIn, EncodePacket, Stream, Socket.Valid;
      var data := Encode(p);
      PacketNotEmpty(p);
      assert data[0..] == data;
      AttachSendBuffer(TcpSendBuffer(0, data));
      StreamPush(packets, p);
      C.Regroup(outgoing.accepted, old(Unsent()), data);
      packets := packets + [p];
      ReceivesStill();
    }
  }
}
