/** The outgoing queues of the proxy: chunks with a write offset, flushed to a non-blocking socket. */
module OffsetQueue {
  import opened Bytes

  datatype Chunk = Chunk(buf: seq<Byte>, off: nat)

  type Queue = seq<Chunk>

  /** Every chunk still has a byte to write: a zero-length write would read as a broken socket. */
  ghost predicate QueueOk(q: Queue) { forall c :: c in q ==> c.off < |c.buf| }

  function Left(c: Chunk): seq<Byte> { c.buf[Min(c.off, |c.buf|)..] }

  /** The bytes still to be written, in order. */
  function Pending(q: Queue): seq<Byte> {
    if q == [] then [] else Left(q[0]) + Pending(q[1..])
  }

  lemma {:induction false} PendingPush(q: Queue, bytes: seq<Byte>)
    ensures Pending(q + [Chunk(bytes, 0)]) == Pending(q) + bytes
  {
    if q == [] {
      assert q + [Chunk(bytes, 0)] == [Chunk(bytes, 0)];
      assert Pending([Chunk(bytes, 0)]) == bytes + Pending([]);
    } else {
      assert (q + [Chunk(bytes, 0)])[1..] == q[1..] + [Chunk(bytes, 0)];
      PendingPush(q[1..], bytes);
    }
  }

  lemma EmptyPending(q: Queue)
    requires QueueOk(q)
    ensures Pending(q) == [] <==> q == []
  {
  }

  /** The queue after k more bytes of its front chunk were written. */
  function Advance(q: Queue, k: nat): Queue
    requires q != []
  {
    var c := q[0].(off := q[0].off + k);
    if c.off >= |c.buf| then q[1..] else [c] + q[1..]
  }

  lemma PendingFront(c: Chunk, t: Queue)
    ensures Pending([c] + t) == Left(c) + Pending(t)
  {
  }

  lemma AdvanceConserves(q: Queue, k: nat)
    requires QueueOk(q) && q != [] && k <= |Left(q[0])|
    ensures QueueOk(Advance(q, k))
    ensures Left(q[0])[..k] + Pending(Advance(q, k)) == Pending(q)
  {
    assert q[0] in q;
    var c, t := q[0].(off := q[0].off + k), q[1..];
    var left, rest := Left(q[0]), Pending(t);
    assert left[..k] + (left[k..] + rest) == left + rest;
    if c.off < |c.buf| {
      assert Left(c) == left[k..];
      PendingFront(c, t);
    } else {
      assert left[k..] + rest == rest;
    }
  }

  /** What a run of writes did: the queue that is left, the bytes taken, and whether the socket
      still works. */
  datatype Flushed = Flushed(queue: Queue, sent: seq<Byte>, ok: bool)

  function Flush(q: Queue, writes: seq<WriteOutcome>): Flushed
    decreases |writes|
  {
    if q == [] || writes == [] || writes[0].WriteBlock? then Flushed(q, [], true)
    else if writes[0].WriteFail? || Min(writes[0].n, |Left(q[0])|) == 0 then Flushed(q, [], false)
    else
      var k := Min(writes[0].n, |Left(q[0])|);
      var r := Flush(Advance(q, k), writes[1..]);
      r.(sent := Left(q[0])[..k] + r.sent)
  }

  method FlushQueue(queue: Queue, writes: seq<WriteOutcome>) returns (rest: Queue, ghost sent: seq<Byte>, ok: bool)
    ensures rest == Flush(queue, writes).queue && ok == Flush(queue, writes).ok && sent == Flush(queue, writes).sent
  {
    rest, sent, ok := queue, [], true;
    var i := 0;
    while rest != [] && i < |writes|
      invariant 0 <= i <= |writes| && ok
      invariant Flush(queue, writes).queue == Flush(rest, writes[i..]).queue
      invariant Flush(queue, writes).ok == Flush(rest, writes[i..]).ok
      invariant Flush(queue, writes).sent == sent + Flush(rest, writes[i..]).sent
      decreases |writes| - i
    {
      hide Advance, Left;
      var data := Left(rest[0]);
      var outcome := writes[i];
      assert writes[i..][0] == outcome && writes[i..][1..] == writes[i + 1..];
      i := i + 1;
      if outcome.WriteBlock? { return; }
      if outcome.WriteFail? || Min(outcome.n, |data|) == 0 { ok := false; return; }
      var k := Min(outcome.n, |data|);
      rest := Advance(rest, k);
      ghost var more := Flush(rest, writes[i..]).sent;
      assert sent + (data[..k] + more) == (sent + data[..k]) + more;
      sent := sent + data[..k];
    }
  }

  /** Flushing neither loses, repeats nor reorders: what was taken, then what is left, is what was
      pending; and no empty chunk is left behind. */
  lemma {:induction false} FlushConserves(q: Queue, writes: seq<WriteOutcome>)
    requires QueueOk(q)
    ensures QueueOk(Flush(q, writes).queue)
    ensures Flush(q, writes).sent + Pending(Flush(q, writes).queue) == Pending(q)
    decreases |writes|
  {
    hide QueueOk, Advance, Left, Pending;
    if q != [] && writes != [] && writes[0].Took? && Min(writes[0].n, |Left(q[0])|) > 0 {
      var k := Min(writes[0].n, |Left(q[0])|);
      AdvanceConserves(q, k);
      FlushConserves(Advance(q, k), writes[1..]);
    }
  }

  ghost predicate Taking(writes: seq<WriteOutcome>) {
    forall w :: w in writes ==> w.Took? && w.n > 0
  }

  lemma FrontHasBytes(q: Queue)
    requires QueueOk(q) && q != []
    ensures |Left(q[0])| > 0 && Pending(q) != []
  {
  }

  /** A socket that takes something at every write, often enough, gets everything. */
  lemma {:induction false} FlushDrains(q: Queue, writes: seq<WriteOutcome>)
    requires QueueOk(q) && Taking(writes) && |writes| >= |Pending(q)|
    ensures Flush(q, writes) == Flushed([], Pending(q), true)
    decreases |writes|
  {
    if q != [] {
      FrontHasBytes(q);
      assert writes[0] in writes;
      var k := Min(writes[0].n, |Left(q[0])|);
      assert Taking(writes[1..]);
      hide QueueOk, Advance, Left, Pending, Taking;
      AdvanceConserves(q, k);
      FlushDrains(Advance(q, k), writes[1..]);
    }
  }

  // ---------------------------------------------------------------- write by write

  /** One write that takes something moves that much of the front chunk. */
  lemma FlushOne(q: Queue, n: nat)
    requires QueueOk(q) && q != [] && n > 0
    ensures var k := Min(n, |q[0].buf| - q[0].off);
            Flush(q, [Took(n)]) == Flushed(Flush(q, [Took(n)]).queue, Pending(q)[..k], true)
  {
    assert q[0] in q;
    var w := [Took(n)];
    assert w[1..] == [];
    AdvanceConserves(q, Min(n, |Left(q[0])|));
  }

  /** A write that would block, fails or takes nothing is the last, and moves nothing; the socket is
      reported broken unless it would block. */
  lemma FlushStops(q: Queue, w: WriteOutcome, rest: seq<WriteOutcome>)
    requires q != [] && (w.Took? ==> w.n == 0)
    ensures Flush(q, [w] + rest) == Flushed(q, [], w.WriteBlock?)
    ensures Flush(q, []) == Flushed(q, [], true) && Flush([], rest) == Flushed([], [], true)
  {
  }

  /** Behind writes that all take something, the flush goes on from the queue they left. */
  lemma {:induction false} FlushSplits(q: Queue, a: seq<WriteOutcome>, b: seq<WriteOutcome>)
    requires QueueOk(q) && Taking(a)
    ensures var f := Flush(q, a);
            var g := Flush(f.queue, b);
            f.ok && Flush(q, a + b) == Flushed(g.queue, f.sent + g.sent, g.ok)
    decreases |a|
  {
    if q == [] || a == [] {
      assert a == [] ==> a + b == b;
      assert [] + Flush(q, b).sent == Flush(q, b).sent;
    } else {
      assert a[0] in a && Taking(a[1..]);
      assert (a + b)[0] == a[0] && (a + b)[1..] == a[1..] + b;
      FrontHasBytes(q);
      var k := Min(a[0].n, |Left(q[0])|);
      AdvanceConserves(q, k);
      FlushSplits(Advance(q, k), a[1..], b);
      var f := Flush(Advance(q, k), a[1..]);
      var g := Flush(f.queue, b);
      assert Left(q[0])[..k] + (f.sent + g.sent) == (Left(q[0])[..k] + f.sent) + g.sent;
    }
  }

  predicate Breaks(w: WriteOutcome) { w.WriteFail? || w == Took(0) }

  /** The socket is reported broken exactly when a write fails, or takes nothing, behind writes that all
      took something and did not empty the queue. */
  lemma {:induction false} FlushFailsOnError(q: Queue, writes: seq<WriteOutcome>)
    requires QueueOk(q)
    ensures !Flush(q, writes).ok <==>
            exists i :: 0 <= i < |writes| && Breaks(writes[i]) && Taking(writes[..i])
                        && Flush(q, writes[..i]).queue != []
  {
    if !Flush(q, writes).ok {
      var i := FirstStop(writes);
      var a, b := writes[..i], writes[i..];
      assert a + b == writes;
      FlushSplits(q, a, b);
      assert Flush(Flush(q, a).queue, b).ok == false;
      assert b != [] ==> b == [b[0]] + b[1..] && b[0] == writes[i];
    }
    forall i | 0 <= i < |writes| && Breaks(writes[i]) && Taking(writes[..i]) && Flush(q, writes[..i]).queue != []
      ensures !Flush(q, writes).ok
    {
      var a, b := writes[..i], writes[i..];
      assert a + b == writes && b == [writes[i]] + b[1..];
      FlushSplits(q, a, b);
      FlushStops(Flush(q, a).queue, writes[i], b[1..]);
    }
  }

  lemma {:induction false} FirstStop(writes: seq<WriteOutcome>) returns (i: nat)
    ensures i <= |writes| && Taking(writes[..i]) && (i < |writes| ==> !writes[i].Took? || writes[i].n == 0)
  {
    i := 0;
    while i < |writes| && writes[i].Took? && writes[i].n > 0
      invariant 0 <= i <= |writes| && Taking(writes[..i])
    {
      i := i + 1;
    }
  }
}
