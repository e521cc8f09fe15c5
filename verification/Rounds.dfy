/** What one write event and one read event come to, from what the system calls answer: how many bytes, and whether the
    event ends the direction for good. */
module Rounds {
  import opened Basics
  import opened Packets

  type Errno = x: int | x > 0 witness 1

  const EPIPE: Errno := 32
  const EYAICINVPACKET: Errno := 100001

  /** What a read or write on a non-blocking socket may do: move at most n bytes, or report that it would block, or fail. */
  datatype Outcome = Moved(n: nat) | WouldBlock | Failed(e: Errno)

  function Least(a: nat, b: nat): nat {
    if a < b then a else b
  }

  /** The answer to the next system call; when the plan has run out there is nothing more to do now. */
  function Answer(plan: seq<Outcome>): Outcome {
    if plan == [] then WouldBlock else plan[0]
  }

  function Later(plan: seq<Outcome>): seq<Outcome> {
    if plan == [] then [] else plan[1..]
  }

  /** The answer to the j-th call, from 0. */
  function Nth(plan: seq<Outcome>, j: int): Outcome {
    if 0 <= j < |plan| then plan[j] else WouldBlock
  }

  /** None of the first `calls` calls fails. */
  predicate NoFailure(plan: seq<Outcome>, calls: int) {
    forall j: nat :: j < calls ==> !Nth(plan, j).Failed?
  }

  /** How many bytes a call moves that could move `most`. */
  function Moves(o: Outcome, most: nat): nat {
    if o.Moved? then Least(o.n, most) else 0
  }

  /** The first k bytes have gone from one sequence to the end of another. */
  predicate Passed(to: seq<Byte>, from: seq<Byte>, to': seq<Byte>, from': seq<Byte>, k: nat) {
    k <= |from| && to' == to + from[..k] && from' == from[k..]
  }

  lemma PassedIs(to: seq<Byte>, from: seq<Byte>, to': seq<Byte>, from': seq<Byte>, k: nat)
    requires Passed(to, from, to', from', k)
    ensures k <= |from| && from' == from[k..] && |from| - |from'| == k
  {
  }

  lemma PassedNothing(to: seq<Byte>, from: seq<Byte>)
    ensures Passed(to, from, to, from, 0)
  {
  }

  lemma PassedTwice(to: seq<Byte>, from: seq<Byte>, to': seq<Byte>, from': seq<Byte>, to'': seq<Byte>, from'': seq<Byte>, i: nat, j: nat)
    requires Passed(to, from, to', from', i) && Passed(to', from', to'', from'', j)
    ensures Passed(to, from, to'', from'', i + j)
  {
    assert from[..i] + from'[..j] == from[..i + j];
  }

  // ---------------------------------------------------------------- writing

  function Sum(q: seq<nat>): nat {
    if q == [] then 0 else q[0] + Sum(q[1..])
  }

  /** What is left of the buffers when k bytes of the first are gone; they are never empty. */
  function Left(pending: seq<nat>, k: nat): seq<nat>
    requires pending != [] && k <= pending[0]
  {
    if k == pending[0] then pending[1..] else [pending[0] - k] + pending[1..]
  }

  /** Writing from buffers of these lengths, one call for each of rounds + 1 turns: the bytes written, and the error that
      writing stops with, 0 when everything is written. */
  function WriteRun(pending: seq<nat>, plan: seq<Outcome>, rounds: nat): (nat, Option<nat>)
    decreases rounds, 1
  {
    var o := Answer(plan);
    if pending == [] then (0, Some(0))
    else if o.Failed? then (0, Some(o.e))
    else
      var k := Moves(o, pending[0]);
      var (m, stop) := MoreRun(Left(pending, k), Later(plan), rounds);
      (k + m, stop)
  }

  /** A call has been made. */
  function MoreRun(pending: seq<nat>, plan: seq<Outcome>, rounds: nat): (nat, Option<nat>)
    decreases rounds, 0
  {
    if pending == [] then (0, Some(0)) else if rounds == 0 then (0, None) else WriteRun(pending, plan, rounds - 1)
  }

  lemma WriteEnds(pending: seq<nat>, plan: seq<Outcome>, rounds: nat)
    ensures pending == [] ==> WriteRun(pending, plan, rounds) == (0, Some(0))
    ensures pending != [] && Answer(plan).Failed? ==> WriteRun(pending, plan, rounds) == (0, Some(Answer(plan).e)) && Moves(Answer(plan), pending[0]) == 0
  {
  }

  predicate Positive(pending: seq<nat>) {
    forall i: nat :: i < |pending| ==> pending[i] > 0
  }

  lemma LeftSum(pending: seq<nat>, k: nat)
    requires pending != [] && k <= pending[0] && Positive(pending)
    ensures Sum(Left(pending, k)) == Sum(pending) - k && Positive(Left(pending, k))
    ensures Left(pending, k) != [] ==> Sum(Left(pending, k)) > 0
  {
    if k < pending[0] {
      assert Left(pending, k)[1..] == pending[1..];
    }
  }

  lemma LeftNone(pending: seq<nat>)
    requires pending != [] && pending[0] > 0
    ensures Left(pending, 0) == pending
  {
  }

  /** The j-th call is the first to fail, with e. */
  predicate FailsAt(plan: seq<Outcome>, j: nat, e: nat) {
    Nth(plan, j).Failed? && Nth(plan, j).e == e && NoFailure(plan, j)
  }

  lemma FailsLater(plan: seq<Outcome>, j: nat, e: nat)
    requires !Answer(plan).Failed? && FailsAt(Later(plan), j, e)
    ensures FailsAt(plan, j + 1, e)
  {
    assert forall i: nat :: i > 0 ==> Nth(plan, i) == Nth(Later(plan), i - 1);
  }

  lemma NoFailureLater(plan: seq<Outcome>, calls: nat)
    requires !Answer(plan).Failed? && NoFailure(Later(plan), calls)
    ensures NoFailure(plan, calls + 1)
  {
    assert forall i: nat :: i > 0 ==> Nth(plan, i) == Nth(Later(plan), i - 1);
  }

  /** Writing stops with 0 exactly when everything is written; otherwise with the first failure among the calls made; and
      otherwise it does not stop. */
  lemma {:induction false} WriteStops(pending: seq<nat>, plan: seq<Outcome>, rounds: nat)
    requires Positive(pending)
    ensures var (k, stop) := WriteRun(pending, plan, rounds);
      && k <= Sum(pending) && (stop == Some(0) <==> k == Sum(pending))
      && (stop.None? ==> NoFailure(plan, rounds + 1))
      && (stop.Some? && stop.value != 0 ==> exists j: nat :: j <= rounds && FailsAt(plan, j, stop.value))
    decreases rounds
  {
    hide FailsAt, NoFailure;
    if pending != [] {
      if Answer(plan).Failed? {
        FirstFails(plan);
      } else {
        var k := Moves(Answer(plan), pending[0]);
        LeftSum(pending, k);
        NoFailureNone(Later(plan));
        if Left(pending, k) != [] && rounds > 0 {
          WriteStops(Left(pending, k), Later(plan), rounds - 1);
          var stop := WriteRun(Left(pending, k), Later(plan), rounds - 1).1;
          if stop.None? {
            NoFailureLater(plan, rounds);
          } else if stop.value != 0 {
            var j: nat :| j <= rounds - 1 && FailsAt(Later(plan), j, stop.value);
            FailsLater(plan, j, stop.value);
          }
        } else if rounds == 0 {
          NoFailureLater(plan, 0);
        }
      }
    }
  }

  lemma FirstFails(plan: seq<Outcome>)
    requires Answer(plan).Failed?
    ensures FailsAt(plan, 0, Answer(plan).e)
  {
  }

  lemma NoFailureNone(plan: seq<Outcome>)
    ensures NoFailure(plan, 0)
  {
  }

  /** What the first `calls` answers allow to be written, up to the first failure. */
  function Offered(plan: seq<Outcome>, calls: nat): nat
    decreases calls
  {
    if calls == 0 || Answer(plan).Failed? then 0
    else (if Answer(plan).Moved? then Answer(plan).n else 0) + Offered(Later(plan), calls - 1)
  }

  /** No more is written than the calls allow, and at least of the first buffer all that they allow. */
  lemma {:induction false} WriteMoves(pending: seq<nat>, plan: seq<Outcome>, rounds: nat)
    requires Positive(pending)
    ensures var k := WriteRun(pending, plan, rounds).0;
      && k <= Offered(plan, rounds + 1)
      && (pending != [] ==> k >= Least(pending[0], Offered(plan, rounds + 1)))
      && (|pending| == 1 ==> k == Least(pending[0], Offered(plan, rounds + 1)))
    decreases rounds
  {
    var o := Answer(plan);
    if pending != [] && !o.Failed? {
      var k := Moves(o, pending[0]);
      LeftSum(pending, k);
      assert Offered(plan, rounds + 1) == (if o.Moved? then o.n else 0) + Offered(Later(plan), rounds);
      if Left(pending, k) != [] && rounds > 0 {
        WriteMoves(Left(pending, k), Later(plan), rounds - 1);
      }
    }
  }

  /** Everything is written when there is a turn for every buffer and each call takes its buffer whole. */
  lemma {:induction false} WriteDrains(pending: seq<nat>, plan: seq<Outcome>, rounds: nat)
    requires Positive(pending) && |pending| <= rounds + 1 && |pending| <= |plan|
    requires forall j: nat :: j < |pending| ==> plan[j].Moved? && plan[j].n >= pending[j]
    ensures WriteRun(pending, plan, rounds) == (Sum(pending), Some(0))
    decreases rounds
  {
    if |pending| > 1 {
      assert Left(pending, pending[0]) == pending[1..];
      WriteDrains(pending[1..], plan[1..], rounds - 1);
    }
  }

  // ---------------------------------------------------------------- reading

  /** What a read event comes to: the bytes taken from the wire, the calls made, and the error that reading stops with. */
  datatype Reading = Reading(got: nat, calls: nat, stop: Option<Errno>)

  function Then(r: Reading, more: Reading): Reading {
    Reading(r.got + more.got, r.calls + more.calls, more.stop)
  }

  /** What the buffer holds between two events: a frame that is not complete, and not too long. */
  predicate Partial(b: seq<Byte>) {
    |b| < HEADER_SIZE || (ParseHeader(b).payloadSize <= MAX_PAYLOAD && |b| < FrameLength(b))
  }

  /** What the next call asks for: the rest of the header, or else the rest of the payload. */
  function Wanted(b: seq<Byte>): (r: nat)
    requires Partial(b)
    ensures r > 0
  {
    if |b| < HEADER_SIZE then HEADER_SIZE - |b| else FrameLength(b) - |b|
  }

  predicate Oversized(b: seq<Byte>) {
    |b| >= HEADER_SIZE && ParseHeader(b).payloadSize > MAX_PAYLOAD
  }

  /** One call for `want` bytes with `there` on the wire. A short read ends reading when the other end has closed. */
  function ReadOnce(o: Outcome, want: nat, there: nat, closing: bool): Reading {
    if o.Failed? then Reading(0, 1, Some(o.e))
    else
      var k := Moves(o, Least(want, there));
      Reading(k, 1, if k < want && closing then Some(EPIPE) else None)
  }

  /** Reading on from a partial frame b, with rounds + 1 turns, each for at most one frame. */
  function ReadRun(b: seq<Byte>, wire: seq<Byte>, plan: seq<Outcome>, closing: bool, rounds: nat): (r: Reading)
    requires Partial(b)
    ensures r.got <= |wire|
    decreases rounds, 1
  {
    if |b| < HEADER_SIZE then
      var r := ReadOnce(Answer(plan), HEADER_SIZE - |b|, |wire|, closing);
      if r.stop.Some? || |b| + r.got < HEADER_SIZE then r
      else Then(r, BodyRun(b + wire[..r.got], wire[r.got..], Later(plan), closing, rounds))
    else BodyRun(b, wire, plan, closing, rounds)
  }

  /** The header is there. */
  function BodyRun(b: seq<Byte>, wire: seq<Byte>, plan: seq<Outcome>, closing: bool, rounds: nat): (r: Reading)
    requires |b| >= HEADER_SIZE && (|b| == HEADER_SIZE || Partial(b))
    ensures r.got <= |wire|
    decreases rounds, 0
  {
    if ParseHeader(b).payloadSize == 0 then NextRun(wire, plan, closing, rounds)
    else if ParseHeader(b).payloadSize > MAX_PAYLOAD then Reading(0, 0, Some(EYAICINVPACKET))
    else
      var r := ReadOnce(Answer(plan), FrameLength(b) - |b|, |wire|, closing);
      if r.stop.Some? || |b| + r.got < FrameLength(b) then r
      else Then(r, NextRun(wire[r.got..], Later(plan), closing, rounds))
  }

  /** A frame has been called back. */
  function NextRun(wire: seq<Byte>, plan: seq<Outcome>, closing: bool, rounds: nat): (r: Reading)
    ensures r.got <= |wire|
    decreases rounds, 0, 0
  {
    if rounds == 0 then Reading(0, 0, None) else ReadRun([], wire, plan, closing, rounds - 1)
  }

  lemma ReadThen(b: seq<Byte>, wire: seq<Byte>, plan: seq<Outcome>, closing: bool, rounds: nat)
    requires Partial(b) && |b| < HEADER_SIZE
    ensures var r := ReadOnce(Answer(plan), HEADER_SIZE - |b|, |wire|, closing);
      r.stop.None? && |b| + r.got == HEADER_SIZE ==>
        r.got <= |wire|
        && var more := BodyRun(b + wire[..r.got], wire[r.got..], Later(plan), closing, rounds);
          ReadRun(b, wire, plan, closing, rounds).got == r.got + more.got && ReadRun(b, wire, plan, closing, rounds).stop == more.stop
  {
    hide BodyRun, ParseHeader;
  }

  /** The header has come whole with one call, and reading goes on. */
  lemma ReadOn(b: seq<Byte>, wire: seq<Byte>, plan: seq<Outcome>, closing: bool, rounds: nat,
               was: seq<Byte>, b': seq<Byte>, wire': seq<Byte>, is': seq<Byte>, wire'': seq<Byte>, is'': seq<Byte>)
    requires Partial(b) && |b| < HEADER_SIZE == |b'|
    requires var r := ReadOnce(Answer(plan), HEADER_SIZE - |b|, |wire|, closing);
      r.stop.None? && Passed(was, wire, is', wire', r.got) && b' == b + wire[..|wire| - |wire'|]
    requires Passed(is', wire', is'', wire'', BodyRun(b', wire', Later(plan), closing, rounds).got)
    ensures var r := ReadRun(b, wire, plan, closing, rounds);
      Passed(was, wire, is'', wire'', r.got) && r.stop == BodyRun(b', wire', Later(plan), closing, rounds).stop
  {
    hide *;
    ReadThen(b, wire, plan, closing, rounds);
    var r := ReadOnce(Answer(plan), HEADER_SIZE - |b|, |wire|, closing);
    PassedIs(was, wire, is', wire', r.got);
    PassedTwice(was, wire, is', wire', is'', wire'', r.got, BodyRun(b', wire', Later(plan), closing, rounds).got);
  }

  /** The payload has come whole with one call, and reading goes on with the next packet. */
  lemma BodyOn(b: seq<Byte>, wire: seq<Byte>, plan: seq<Outcome>, closing: bool, rounds: nat,
               was: seq<Byte>, wire': seq<Byte>, is': seq<Byte>, wire'': seq<Byte>, is'': seq<Byte>)
    requires |b| >= HEADER_SIZE && Partial(b) && ParseHeader(b).payloadSize > 0
    requires var r := ReadOnce(Answer(plan), FrameLength(b) - |b|, |wire|, closing);
      r.stop.None? && Passed(was, wire, is', wire', r.got) && |b| + |wire| - |wire'| == FrameLength(b)
    requires Passed(is', wire', is'', wire'', NextRun(wire', Later(plan), closing, rounds).got)
    ensures var r := BodyRun(b, wire, plan, closing, rounds);
      Passed(was, wire, is'', wire'', r.got) && r.stop == NextRun(wire', Later(plan), closing, rounds).stop
  {
    hide NextRun, ParseHeader, Passed, ReadOnce;
    var r := ReadOnce(Answer(plan), FrameLength(b) - |b|, |wire|, closing);
    PassedIs(was, wire, is', wire', r.got);
    PassedTwice(was, wire, is', wire', is'', wire'', r.got, NextRun(wire', Later(plan), closing, rounds).got);
  }

  /** A write call has not failed, and writing goes on. */
  lemma WriteOn(pending: seq<nat>, plan: seq<Outcome>, rounds: nat,
                was: seq<Byte>, unsent: seq<Byte>, is': seq<Byte>, unsent': seq<Byte>, is'': seq<Byte>, unsent'': seq<Byte>)
    requires pending != [] && !Answer(plan).Failed?
    requires var k := Moves(Answer(plan), pending[0]);
      Passed(was, unsent, is', unsent', k) && Passed(is', unsent', is'', unsent'', MoreRun(Left(pending, k), Later(plan), rounds).0)
    ensures var r := WriteRun(pending, plan, rounds);
      Passed(was, unsent, is'', unsent'', r.0) && r.1 == MoreRun(Left(pending, Moves(Answer(plan), pending[0])), Later(plan), rounds).1
  {
    hide MoreRun, Left, Passed;
    var k := Moves(Answer(plan), pending[0]);
    PassedTwice(was, unsent, is', unsent', is'', unsent'', k, MoreRun(Left(pending, k), Later(plan), rounds).0);
  }

  lemma ReadBodyOnly(b: seq<Byte>, wire: seq<Byte>, plan: seq<Outcome>, closing: bool, rounds: nat)
    requires Partial(b) && |b| >= HEADER_SIZE
    ensures ReadRun(b, wire, plan, closing, rounds) == BodyRun(b, wire, plan, closing, rounds)
  {
  }

  /** The header has not come whole, or reading stops. */
  lemma ReadShort(b: seq<Byte>, wire: seq<Byte>, plan: seq<Outcome>, closing: bool, rounds: nat, was: seq<Byte>, wire': seq<Byte>, is': seq<Byte>)
    requires Partial(b) && |b| < HEADER_SIZE
    requires var r := ReadOnce(Answer(plan), HEADER_SIZE - |b|, |wire|, closing);
      Passed(was, wire, is', wire', r.got) && (r.stop.Some? || |b| + |wire| - |wire'| < HEADER_SIZE)
    ensures ReadRun(b, wire, plan, closing, rounds) == ReadOnce(Answer(plan), HEADER_SIZE - |b|, |wire|, closing)
  {
  }

  lemma BodyShort(b: seq<Byte>, wire: seq<Byte>, plan: seq<Outcome>, closing: bool, rounds: nat, was: seq<Byte>, wire': seq<Byte>, is': seq<Byte>)
    requires |b| >= HEADER_SIZE && Partial(b) && ParseHeader(b).payloadSize > 0
    requires var r := ReadOnce(Answer(plan), FrameLength(b) - |b|, |wire|, closing);
      Passed(was, wire, is', wire', r.got) && (r.stop.Some? || |b| + |wire| - |wire'| != FrameLength(b))
    ensures BodyRun(b, wire, plan, closing, rounds) == ReadOnce(Answer(plan), FrameLength(b) - |b|, |wire|, closing)
  {
  }

  /** An empty packet needs no call, and one that is too long gets none. */
  lemma BodyEnds(b: seq<Byte>, wire: seq<Byte>, plan: seq<Outcome>, closing: bool, rounds: nat)
    requires |b| >= HEADER_SIZE && (|b| == HEADER_SIZE || Partial(b))
    ensures ParseHeader(b).payloadSize == 0 ==> BodyRun(b, wire, plan, closing, rounds) == NextRun(wire, plan, closing, rounds)
    ensures ParseHeader(b).payloadSize > MAX_PAYLOAD ==> BodyRun(b, wire, plan, closing, rounds) == Reading(0, 0, Some(EYAICINVPACKET))
  {
  }

  // ---------------------------------------------------------------- what reading comes to

  /** The last call gave less than it was asked for: nothing is left on the wire, or the call would block, or it moved all
      that it was allowed to, which is less than what the frame begun in s still wanted. */
  predicate CutShort(s: seq<Byte>, last: Outcome, left: nat) {
    || left == 0 || !last.Moved?
    || (last.n <= |s| && var q := Split(s[..|s| - last.n]).1; Partial(q) && last.n < Wanted(q))
  }

  /** s is what was in the buffer and what was read, `left` what is left on the wire. Without a stop, no call has failed, and
      either every turn has given a frame, or the other end has not closed and the last call was cut short. A stop is the
      failure of the last call, or a call cut short when the other end has closed, or a packet that is too long; nothing
      that was called back is among what is left over. */
  predicate ReadLaw(s: seq<Byte>, left: nat, plan: seq<Outcome>, closing: bool, rounds: nat, calls: nat, stop: Option<Errno>) {
    var (fs, rest) := Split(s);
    var last := Nth(plan, calls - 1);
    && |fs| <= rounds + 1
    && (stop.None? ==>
          && NoFailure(plan, calls) && !Oversized(rest)
          && (|fs| == rounds + 1 || (!closing && calls > 0 && CutShort(s, last, left))))
    && (stop.Some? ==>
          && NoFailure(plan, calls - 1) && |fs| <= rounds
          && if last.Failed? then stop.value == last.e
             else (stop.value == EPIPE && closing && CutShort(s, last, left)) || (stop.value == EYAICINVPACKET && Oversized(rest)))
  }

  lemma SplitPartial(b: seq<Byte>)
    requires Partial(b)
    ensures Split(b) == ([], b) && !Oversized(b)
  {
  }

  lemma SplitFrame(f: seq<Byte>, more: seq<Byte>)
    requires Complete(f) && |f| == FrameLength(f)
    ensures |Split(f + more).0| == 1 + |Split(more).0| && Split(f + more).1 == Split(more).1
  {
    CompleteMore(f, more);
    assert f[FrameLength(f)..] + more == more;
  }

  /** A call that comes back short of what the frame begun with b wants. */
  lemma LawShort(b: seq<Byte>, wire: seq<Byte>, plan: seq<Outcome>, closing: bool, rounds: nat, r: Reading)
    requires Partial(b) && r == ReadOnce(Answer(plan), Wanted(b), |wire|, closing) && (r.stop.Some? || r.got < Wanted(b)) && r.got <= |wire|
    requires Partial(b + wire[..r.got]) || r.stop.Some?
    ensures ReadLaw(b + wire[..r.got], |wire| - r.got, plan, closing, rounds, r.calls, r.stop)
  {
    hide Split, Wanted;
    var s := b + wire[..r.got];
    if r.got < Wanted(b) {
      PartialShort(b, wire[..r.got]);
      SplitPartial(s);
    }
    if Answer(plan).Moved? && |wire| - r.got > 0 {
      assert r.got == Answer(plan).n;
      assert s[..|s| - r.got] == b;
      SplitPartial(b);
    }
  }

  lemma PartialShort(b: seq<Byte>, c: seq<Byte>)
    requires Partial(b) && |c| < Wanted(b)
    ensures Partial(b + c)
  {
    if |b| >= HEADER_SIZE {
      assert (b + c)[2..6] == b[2..6];
    }
  }

  /** One call more before the rest. */
  lemma LawLater(s: seq<Byte>, left: nat, plan: seq<Outcome>, closing: bool, rounds: nat, calls: nat, stop: Option<Errno>)
    requires ReadLaw(s, left, Later(plan), closing, rounds, calls, stop) && !Answer(plan).Failed?
    requires calls == 0 && stop.Some? ==> stop.value == EYAICINVPACKET && Oversized(Split(s).1)
    ensures ReadLaw(s, left, plan, closing, rounds, calls + 1, stop)
  {
    hide Split, CutShort, Oversized;
    assert forall j: nat :: Nth(plan, j + 1) == Nth(Later(plan), j);
    assert Nth(plan, 0) == Answer(plan);
    assert forall j: nat :: j > 0 ==> Nth(plan, j) == Nth(Later(plan), j - 1);
  }

  /** A frame more before the rest. */
  lemma LawFrame(f: seq<Byte>, s: seq<Byte>, left: nat, plan: seq<Outcome>, closing: bool, rounds: nat, calls: nat, stop: Option<Errno>)
    requires Complete(f) && |f| == FrameLength(f) && rounds > 0 && ReadLaw(s, left, plan, closing, rounds - 1, calls, stop)
    ensures ReadLaw(f + s, left, plan, closing, rounds, calls, stop)
  {
    hide Split, Complete, FrameLength, Oversized, Wanted, Partial;
    SplitFrame(f, s);
    var last := Nth(plan, calls - 1);
    if last.Moved? && last.n <= |s| {
      assert (f + s)[..|f + s| - last.n] == f + s[..|s| - last.n];
      SplitFrame(f, s[..|s| - last.n]);
    }
  }

  /** What a read event comes to, as a law of its input. */
  lemma {:induction false} ReadLaws(b: seq<Byte>, wire: seq<Byte>, plan: seq<Outcome>, closing: bool, rounds: nat)
    requires Partial(b)
    ensures var r := ReadRun(b, wire, plan, closing, rounds);
      ReadLaw(b + wire[..r.got], |wire| - r.got, plan, closing, rounds, r.calls, r.stop) && (|b| < HEADER_SIZE ==> r.calls > 0)
    decreases rounds, 1
  {
    hide Split, ReadLaw, BodyRun, ParseHeader;
    if |b| >= HEADER_SIZE {
      BodyLaws(b, wire, plan, closing, rounds);
    } else {
      var r := ReadOnce(Answer(plan), HEADER_SIZE - |b|, |wire|, closing);
      if r.stop.Some? || |b| + r.got < HEADER_SIZE {
        LawShort(b, wire, plan, closing, rounds, r);
      } else {
        var b', wire' := b + wire[..r.got], wire[r.got..];
        var r' := BodyRun(b', wire', Later(plan), closing, rounds);
        BodyLaws(b', wire', Later(plan), closing, rounds);
        LawLater(b' + wire'[..r'.got], |wire'| - r'.got, plan, closing, rounds, r'.calls, r'.stop);
        TakeTwice(b, wire, r.got, r'.got);
      }
    }
  }

  lemma {:induction false} BodyLaws(b: seq<Byte>, wire: seq<Byte>, plan: seq<Outcome>, closing: bool, rounds: nat)
    requires |b| >= HEADER_SIZE && (|b| == HEADER_SIZE || Partial(b))
    ensures var r := BodyRun(b, wire, plan, closing, rounds);
      && ReadLaw(b + wire[..r.got], |wire| - r.got, plan, closing, rounds, r.calls, r.stop)
      && (r.calls == 0 && r.stop.Some? ==> r.stop.value == EYAICINVPACKET && Oversized(Split(b + wire[..r.got]).1))
    decreases rounds, 0
  {
    hide Split, ReadLaw, NextRun, ParseHeader;
    var r := ReadOnce(Answer(plan), FrameLength(b) - |b|, |wire|, closing);
    if ParseHeader(b).payloadSize == 0 {
      NextLaws(b, wire, plan, closing, rounds);
    } else if ParseHeader(b).payloadSize > MAX_PAYLOAD {
      LawOversized(b, wire, plan, closing, rounds);
    } else if r.stop.Some? || |b| + r.got < FrameLength(b) {
      if r.stop.None? {
        PartialShort(b, wire[..r.got]);
      }
      LawShort(b, wire, plan, closing, rounds, r);
    } else {
      var f, wire' := b + wire[..r.got], wire[r.got..];
      var r' := NextRun(wire', Later(plan), closing, rounds);
      FrameWhole(b, wire[..r.got]);
      NextLaws(f, wire', Later(plan), closing, rounds);
      LawLater(f + wire'[..r'.got], |wire'| - r'.got, plan, closing, rounds, r'.calls, r'.stop);
      TakeTwice(b, wire, r.got, r'.got);
    }
  }

  lemma TakeTwice(b: seq<Byte>, wire: seq<Byte>, i: nat, j: nat)
    requires i + j <= |wire|
    ensures b + wire[..i] + wire[i..][..j] == b + wire[..i + j] && |wire[i..]| - j == |wire| - (i + j)
  {
    assert wire[..i] + wire[i..][..j] == wire[..i + j];
  }

  lemma FrameWhole(b: seq<Byte>, c: seq<Byte>)
    requires |b| >= HEADER_SIZE && ParseHeader(b).payloadSize <= MAX_PAYLOAD && |b| + |c| == FrameLength(b)
    ensures Complete(b + c) && |b + c| == FrameLength(b + c)
  {
    assert (b + c)[2..6] == b[2..6];
  }

  lemma LawOversized(b: seq<Byte>, wire: seq<Byte>, plan: seq<Outcome>, closing: bool, rounds: nat)
    requires Oversized(b)
    ensures ReadLaw(b + wire[..0], |wire|, plan, closing, rounds, 0, Some(EYAICINVPACKET)) && Oversized(Split(b + wire[..0]).1)
  {
    assert b + wire[..0] == b;
  }

  lemma {:induction false} NextLaws(f: seq<Byte>, wire: seq<Byte>, plan: seq<Outcome>, closing: bool, rounds: nat)
    requires Complete(f) && |f| == FrameLength(f)
    ensures var r := NextRun(wire, plan, closing, rounds);
      ReadLaw(f + wire[..r.got], |wire| - r.got, plan, closing, rounds, r.calls, r.stop) && (r.calls > 0 || r.stop.None?)
    decreases rounds, 0, 0
  {
    hide Split, ReadLaw, ParseHeader, ReadRun, Complete;
    if rounds == 0 {
      LawDone(f, |wire|, plan, closing);
      assert f + wire[..0] == f;
    } else {
      var r := ReadRun([], wire, plan, closing, rounds - 1);
      ReadLaws([], wire, plan, closing, rounds - 1);
      LawFrame(f, [] + wire[..r.got], |wire| - r.got, plan, closing, rounds, r.calls, r.stop);
      assert f + ([] + wire[..r.got]) == f + wire[..r.got];
    }
  }

  lemma LawDone(f: seq<Byte>, left: nat, plan: seq<Outcome>, closing: bool)
    requires Complete(f) && |f| == FrameLength(f)
    ensures ReadLaw(f, left, plan, closing, 0, 0, None)
  {
    hide FirstFrame, FrameLength;
    assert f[|f|..] == [];
    SplitPartial([]);
  }

  /** The first call takes what it is allowed to, of what is wanted and there. */
  lemma ReadMoves(b: seq<Byte>, wire: seq<Byte>, plan: seq<Outcome>, closing: bool, rounds: nat)
    requires Partial(b) && Answer(plan).Moved?
    ensures ReadRun(b, wire, plan, closing, rounds).got >= Least(Answer(plan).n, Least(Wanted(b), |wire|))
  {
  }
}
