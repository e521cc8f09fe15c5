/** A connection between two TCP managers: whatever both of them do, and whatever the sizes of reads, writes and of what the
    network moves, packets arrive once each, in order, unaltered, in both directions. */
module Channel {
  import opened Basics
  import opened Packets
  import opened Receive
  import opened Clients
  import opened Connections

  /** One manager runs its loop, or the network moves at most `count` bytes in one direction. */
  datatype Move =
    | LeftRuns(iterations: seq<seq<LoopEvent>>)
    | RightRuns(iterations: seq<seq<LoopEvent>>)
    | ToRight(count: nat)
    | ToLeft(count: nat)

  /** The bytes that have arrived at one end are those that were taken at the other. */
  ghost predicate Wired(a: Client, b: Client)
    reads a.outgoing, b.incoming
  {
    b.incoming.accepted == a.outgoing.consumed
  }

  /** The i-th callback at b decodes to the i-th packet that was sent to a. */
  lemma InOrder(a: Client, b: Client, i: nat)
    requires a.Sends() && b.Receives() && Wired(a, b) && (forall p :: p in a.packets ==> Sendable(p))
    requires i < |b.receiveBuffer.callbacks|
    ensures |b.receiveBuffer.callbacks| <= |a.packets|
    ensures var c := b.receiveBuffer.callbacks[i]; Factory(c.header, c.data) == Some(a.packets[i])
  {
    hide Split, TcpReceiveBuffer.InStep, TcpReceiveBuffer.Valid, Stream, EncodePayload, Factory;
    FramesArePackets(a, b);
    var c := b.receiveBuffer.callbacks[i];
    assert AllDelivered(b.receiveBuffer.callbacks)[i] == Delivered(c) == FrameOf(a.packets[i]);
    FactoryInverts(a.packets[i], c.header, c.data);
  }

  lemma FramesArePackets(a: Client, b: Client)
    requires a.Sends() && b.Receives() && Wired(a, b) && (forall p :: p in a.packets ==> Sendable(p))
    ensures var fs := Split(b.incoming.consumed).0;
      |fs| <= |a.packets| && forall i: nat :: i < |fs| ==> fs[i] == FrameOf(a.packets[i])
  {
    hide Split, TcpReceiveBuffer.InStep, TcpReceiveBuffer.Valid, AllDelivered, FrameOf, EncodePacket, Stream, CallbackOk;
    StreamSplits(a.packets);
    assert b.incoming.consumed <= Stream(a.packets);
    PrefixSplits(b.incoming.consumed, Stream(a.packets));
  }

  /** Once everything sent has been written, moved and read, everything has been called back. */
  lemma Drained(a: Client, b: Client)
    requires a.Sends() && b.Receives() && Wired(a, b) && (forall p :: p in a.packets ==> Sendable(p))
    requires a.Unsent() == [] && a.outgoing.wire == [] && b.incoming.wire == [] && b.readError == 0
    ensures |b.receiveBuffer.callbacks| == |a.packets|
  {
    hide Split, FrameOf, EncodePacket, Stream, CallbackOk, AllDelivered;
    StreamSplits(a.packets);
    assert b.incoming.consumed == Stream(a.packets);
    b.receiveBuffer.NothingLeft(b.incoming.consumed);
  }

  class Channel {
    const left: TcpManager
    const right: TcpManager
    const near: Client
    const far: Client

    ghost predicate Valid()
      reads this, left, right, left.Repr, right.Repr
    {
      && left.Valid() && right.Valid() && left.Repr !! right.Repr && this !in left.Repr && this !in right.Repr
      && left in left.Repr && right in right.Repr && left.log !in right.Repr && right.log !in left.Repr
      && near.id in left.handles && left.handles[near.id] == near && near.Parts() <= left.Repr
      && far.id in right.handles && right.handles[far.id] == far && far.Parts() <= right.Repr
      && left.eraseList == [] && right.eraseList == []
      && Wired(near, far) && Wired(far, near)
    }

    /** A connection that has just come about. */
    constructor (left: TcpManager, near: Client, right: TcpManager, far: Client)
      requires left.Valid() && right.Valid() && left.Repr !! right.Repr && left.eraseList == [] && right.eraseList == []
      requires left.log !in right.Repr && right.log !in left.Repr
      requires near.id in left.handles && left.handles[near.id] == near && far.id in right.handles && right.handles[far.id] == far
      requires near.outgoing.consumed == near.incoming.accepted == far.outgoing.consumed == far.incoming.accepted == []
      ensures Valid() && this.left == left && this.right == right && this.near == near && this.far == far
    {
      hide Told, TcpManager.Books, Client.Ok;
      left.Owned(near.id);
      right.Owned(far.id);
      this.left, this.right, this.near, this.far := left, right, near, far;
    }

    /** The left manager runs; nothing but the network moves bytes of this connection. */
    method LeftRuns(iterations: seq<seq<LoopEvent>>)
      requires Valid() && LeftAlone(Flat(iterations), near.id)
      modifies left.Repr, left.log
      ensures Valid() && Later() && fresh(left.Repr - old(left.Repr)) && right.Repr == old(right.Repr)
    {
      hide Told, TcpManager.Valid;
      left.RunLoopFor(near, iterations);
    }

    method RightRuns(iterations: seq<seq<LoopEvent>>)
      requires Valid() && LeftAlone(Flat(iterations), far.id)
      modifies right.Repr, right.log
      ensures Valid() && Later() && fresh(right.Repr - old(right.Repr)) && left.Repr == old(left.Repr)
    {
      hide Told, TcpManager.Valid;
      right.RunLoopFor(far, iterations);
    }

    /** Nothing is taken back on either side. */
    twostate predicate Later()
      reads near, far, near.receiveBuffer, far.receiveBuffer
    {
      && old(near.packets) <= near.packets && old(far.packets) <= far.packets
      && old(near.receiveBuffer.callbacks) <= near.receiveBuffer.callbacks && old(far.receiveBuffer.callbacks) <= far.receiveBuffer.callbacks
    }

    method ToRight(count: nat)
      requires Valid()
      modifies near.outgoing, far.incoming
      ensures Valid() && Later() && left.Repr == old(left.Repr) && right.Repr == old(right.Repr)
    {
      hide Told, TcpManager.Valid, Follows, TcpManager.History;
      var bytes := left.PeerReads(near, count);
      right.PeerSends(far, bytes);
    }

    method ToLeft(count: nat)
      requires Valid()
      modifies far.outgoing, near.incoming
      ensures Valid() && Later() && left.Repr == old(left.Repr) && right.Repr == old(right.Repr)
    {
      hide Told, TcpManager.Valid, Follows, TcpManager.History;
      var bytes := right.PeerReads(far, count);
      left.PeerSends(near, bytes);
    }

    /** The move leaves it to the network to carry this connection's bytes. */
    predicate Fair(m: Move) {
      match m
      case LeftRuns(iterations) => LeftAlone(Flat(iterations), near.id)
      case RightRuns(iterations) => LeftAlone(Flat(iterations), far.id)
      case _ => true
    }

    method Do(m: Move)
      requires Valid() && Fair(m)
      modifies left.Repr, right.Repr, left.log, right.log
      ensures Valid() && Later() && fresh(left.Repr - old(left.Repr)) && fresh(right.Repr - old(right.Repr))
    {
      hide Valid, LeftAlone, Later;
      Inside();
      match m {
        case LeftRuns(iterations) => LeftRuns(iterations);
        case RightRuns(iterations) => RightRuns(iterations);
        case ToRight(count) => ToRight(count);
        case ToLeft(count) => ToLeft(count);
      }
    }

    lemma Inside()
      requires Valid()
      ensures near.Parts() <= left.Repr && far.Parts() <= right.Repr
    {
    }

    /** Any moves of both managers and the network, in any order. */
    method Run(moves: seq<Move>)
      requires Valid() && forall k :: 0 <= k < |moves| ==> Fair(moves[k])
      modifies left.Repr, right.Repr, left.log, right.log
      ensures Valid() && Later() && fresh(left.Repr - old(left.Repr)) && fresh(right.Repr - old(right.Repr))
    {
      hide Valid, Fair;
      for k := 0 to |moves|
        invariant Valid() && Later() && fresh(left.Repr - old(left.Repr)) && fresh(right.Repr - old(right.Repr))
      {
        Do(moves[k]);
      }
    }

    lemma Ends()
      requires Valid()
      ensures near.Sends() && near.Receives() && far.Sends() && far.Receives() && Wired(near, far) && Wired(far, near)
    {
      hide Told, TcpManager.Books, TcpManager.Entry, Client.Ok;
      left.InHandles(near);
      right.InHandles(far);
    }

    /** In both directions the i-th callback at one end decodes to the i-th packet that was sent at the other. */
    lemma DeliveredInOrder()
      requires Valid()
      ensures (forall p :: p in near.packets ==> Sendable(p)) ==> Delivers(near, far)
      ensures (forall p :: p in far.packets ==> Sendable(p)) ==> Delivers(far, near)
    {
      hide Valid, Client.Sends, Client.Receives, Factory, Wired;
      Ends();
      if forall p :: p in near.packets ==> Sendable(p) {
        InOrderAll(near, far);
      }
      if forall p :: p in far.packets ==> Sendable(p) {
        InOrderAll(far, near);
      }
    }

    /** Once everything sent at one end has been written, moved and read, the other end has called all of it back. */
    lemma DrainedMeansAll()
      requires Valid() && forall p :: p in near.packets + far.packets ==> Sendable(p)
      ensures near.Unsent() == [] && near.outgoing.wire == [] && far.incoming.wire == [] && far.readError == 0 ==>
                |far.receiveBuffer.callbacks| == |near.packets|
      ensures far.Unsent() == [] && far.outgoing.wire == [] && near.incoming.wire == [] && near.readError == 0 ==>
                |near.receiveBuffer.callbacks| == |far.packets|
    {
      hide Valid, Client.Sends, Client.Receives, Client.Unsent, Wired;
      Ends();
      if near.Unsent() == [] && near.outgoing.wire == [] && far.incoming.wire == [] && far.readError == 0 {
        Drained(near, far);
      }
      if far.Unsent() == [] && far.outgoing.wire == [] && near.incoming.wire == [] && near.readError == 0 {
        Drained(far, near);
      }
    }
  }

  /** The callbacks at b are the packets sent to a: as far as they go, in order, none twice, none altered. */
  ghost predicate Delivers(a: Client, b: Client)
    reads a, b.receiveBuffer
  {
    && |b.receiveBuffer.callbacks| <= |a.packets|
    && forall i: nat :: i < |b.receiveBuffer.callbacks| ==>
         Factory(b.receiveBuffer.callbacks[i].header, b.receiveBuffer.callbacks[i].data) == Some(a.packets[i])
  }

  lemma InOrderAll(a: Client, b: Client)
    requires a.Sends() && b.Receives() && Wired(a, b) && (forall p :: p in a.packets ==> Sendable(p))
    ensures Delivers(a, b)
  {
    hide Client.Sends, Client.Receives, Wired, Factory;
    if |b.receiveBuffer.callbacks| > 0 {
      InOrder(a, b, 0);
    }
    forall i: nat | i < |b.receiveBuffer.callbacks|
      ensures |b.receiveBuffer.callbacks| <= |a.packets|
      ensures Factory(b.receiveBuffer.callbacks[i].header, b.receiveBuffer.callbacks[i].data) == Some(a.packets[i])
    {
      InOrder(a, b, i);
    }
  }
}
