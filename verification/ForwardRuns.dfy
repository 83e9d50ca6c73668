/** What every run of a relayed pair keeps, and how it can end. */
module ForwardRuns {
  import opened Bytes
  import opened ForwardPair

  // ---------------------------------------------------------------- integrity and wake-ups

  ghost predicate Intact(from: Side, to: Side) {
    && to.log.written + Flat(to.Chunks()) == from.log.read
    && (to.Chunks() != [] ==> to.backlog.value.total == |Flat(to.Chunks())|)
  }

  /** In each direction of a live pair, the bytes read are the bytes written followed by the chunks
      that wait, each once and in order, and the counter is right while any wait. Of a pair that is
      gone, what was written is the front of what was read. */
  lemma StreamIntegrity(rules: Rules, addr: SockAddr, single: Option<SockAddr>, events: seq<PairEvent>)
    ensures var p := RunPair(rules, addr, single, events);
            && (p.over == None ==> Intact(p.me, p.peer) && Intact(p.peer, p.me))
            && p.peer.log.written <= p.me.log.read && p.me.log.written <= p.peer.log.read
  {
    RunIsOk(rules, addr, single, events);
    hide RunPair, Flat;
    var p := RunPair(rules, addr, single, events);
    if p.over == None && (p.me.open || p.peer.open) {
      FlowEnds(rules.cache, p.me, p.peer);
      FlowEnds(rules.cache, p.peer, p.me);
    }
    NothingWaits();
  }

  /** A socket that is not read while its peer has room, or nothing to take. */
  ghost predicate Starved(cache: nat, from: Side, to: Side) {
    from.open && !from.interest.readable && (to.Chunks() == [] || |Flat(to.Chunks())| < cache)
  }

  /** A socket that is read although enough waits for its peer. */
  ghost predicate Flooding(cache: nat, from: Side, to: Side) {
    from.interest.readable && to.Chunks() != [] && |Flat(to.Chunks())| >= cache
  }

  ghost predicate Awake(cache: nat, p: Pair) {
    && (p.me.interest.writable <==> p.me.Chunks() != [])
    && (p.peer.interest.writable <==> p.peer.Chunks() != [])
    && !Starved(cache, p.me, p.peer) && !Starved(cache, p.peer, p.me)
    && !Flooding(cache, p.me, p.peer) && !Flooding(cache, p.peer, p.me)
  }

  lemma RunIsAwake(rules: Rules, addr: SockAddr, single: Option<SockAddr>, events: seq<PairEvent>)
    requires rules.cache >= 1
    ensures Awake(rules.cache, RunPair(rules, addr, single, events))
  {
    RunIsOk(rules, addr, single, events);
    hide RunPair, Flat, NonEmpty;
  }

  /** With no room at all, a client whose one byte was passed on is not watched for reading. */
  lemma PassedOnUnread(rules: Rules, addr: SockAddr)
    requires rules.cache == 0
    ensures var sent := AtClient(SideEvent(true, [Data([65])], false, []));
            var taken := AtRemote(SideEvent(false, [], true, [Took(1)]));
            !Awake(0, RunPair(rules, addr, Some(addr), [sent, taken]))
  {
    var sent := AtClient(SideEvent(true, [Data([65])], false, []));
    var taken := AtRemote(SideEvent(false, [], true, [Took(1)]));
    var p0 := Accepted(Some(addr));
    var p1 := OnPair(rules, addr, p0, sent);
    assert [sent][..0] == [] && RunPair(rules, addr, Some(addr), [sent]) == p1;
    assert p1.peer.Chunks() == [[65]] && !p1.me.interest.readable;
    assert Push([[65]], [Took(1)]) == Pushed([], [65], Emptied) by {
      assert [65] + [] == [65];
    }
    var p2 := OnPair(rules, addr, p1, taken);
    assert p2.peer.Chunks() == [] && !p2.me.interest.readable && p2.me.open;
    assert [sent, taken][..1] == [sent];
  }

  /** Sockets are watched for writing exactly while something waits for them, and for reading exactly
      while less than the threshold waits for their peer, or nothing: on every run, exactly when the
      threshold is not zero. */
  lemma NeverStuck(rules: Rules, addr: SockAddr)
    ensures (forall single, events :: Awake(rules.cache, RunPair(rules, addr, single, events))) <==> rules.cache >= 1
  {
    hide Awake, RunPair;
    if rules.cache >= 1 {
      forall single, events ensures Awake(rules.cache, RunPair(rules, addr, single, events)) {
        RunIsAwake(rules, addr, single, events);
      }
    } else {
      PassedOnUnread(rules, addr);
    }
  }

  // ---------------------------------------------------------------- a threshold of zero

  /** A socket that was read once is not watched for reading any more. */
  ghost predicate ReadOnce(p: Pair) {
    && (p.me.log.read != [] ==> !p.me.interest.readable)
    && (p.peer.log.read != [] ==> !p.peer.interest.readable)
    && (p.over.None? ==> (p.me.open || p.me.log.read == []) && (p.peer.open || p.peer.log.read == []))
    && (p.over.Some? ==> !p.me.open && !p.peer.open)
  }

  lemma DataStarves(rules: Rules, addr: SockAddr, p: Pair, bytes: seq<Byte>)
    requires rules.cache == 0 && ReadOnce(p) && p.over == None && p.me.open
    ensures var q := TakeData(rules, addr, p, bytes);
            ReadOnce(q) && (q.over == None ==> q.me.open)
  {
  }

  lemma EofStarves(p: Pair)
    requires ReadOnce(p) && p.over == None && p.me.open
    ensures ReadOnce(TakeEof(p)) && (TakeEof(p).over == None ==> TakeEof(p).me.open)
  {
  }

  lemma {:induction false} ReadingStarves(rules: Rules, addr: SockAddr, p: Pair, script: seq<ReadOutcome>, n: nat)
    requires rules.cache == 0 && ReadOnce(p) && p.over == None && p.me.open
    ensures ReadOnce(ReadReady(rules, addr, p, script, n))
    decreases |script|
  {
    hide TakeData, TakeEof;
    if script != [] {
      match Kernel(p.me.ended, script[0])
      case ReadBlock =>
      case ReadFail =>
      case Eof =>
        EofStarves(p);
        hide ReadOnce;
        if n == 0 && TakeEof(p).over.None? { ReadingStarves(rules, addr, TakeEof(p), script[1..], n + 1); }
        if n > 0 { EndStarves(p); }
      case Data(bytes) =>
        DataStarves(rules, addr, p, bytes);
        hide ReadOnce;
        if TakeData(rules, addr, p, bytes).over.None? {
          ReadingStarves(rules, addr, TakeData(rules, addr, p, bytes), script[1..], n + 1);
        }
    }
  }

  lemma EndStarves(p: Pair)
    requires ReadOnce(p)
    ensures ReadOnce(p.(me := p.me.(ended := true)))
  {
  }

  lemma WritingStarves(p: Pair, writes: seq<WriteOutcome>)
    requires ReadOnce(p) && (p.over.Some? ==> p.me.Chunks() == [])
    ensures ReadOnce(WriteReady(0, p, writes))
  {
    hide Push;
  }

  lemma OverIsEmpty(cache: nat, p: Pair)
    requires PairOk(cache, p)
    ensures p.over.Some? ==> p.me.Chunks() == []
  {
  }

  lemma SideStarves(rules: Rules, addr: SockAddr, p: Pair, e: SideEvent)
    requires rules.cache == 0 && ReadOnce(p) && PairOk(rules.cache, p)
    ensures ReadOnce(OnSide(rules, addr, p, e))
  {
    if p.me.open {
      hide ReadOnce, ReadReady, WriteReady;
      var q := if e.readable then ReadReady(rules, addr, p, e.script, 0) else p;
      ReadReadyKeeps(rules, addr, p, e.script, 0);
      hide PairOk;
      ReadingStarves(rules, addr, p, e.script, 0);
      OverIsEmpty(rules.cache, q);
      WritingStarves(q, e.writes);
    }
  }

  lemma FlipStarves(p: Pair)
    ensures ReadOnce(p.Flip()) == ReadOnce(p)
  {
  }

  /** With a threshold of zero a socket that was read once is never watched for reading again, on any run:
      a client, or its target. */
  lemma {:induction false} NoRoomStarves(rules: Rules, addr: SockAddr, single: Option<SockAddr>, events: seq<PairEvent>)
    requires rules.cache == 0
    ensures ReadOnce(RunPair(rules, addr, single, events))
  {
    hide OnSide, ReadOnce;
    if events == [] {
      FreshStarves(single);
    } else {
      var n := |events| - 1;
      var p := RunPair(rules, addr, single, events[..n]);
      NoRoomStarves(rules, addr, single, events[..n]);
      RunIsOk(rules, addr, single, events[..n]);
      FlipOk(rules.cache, p);
      FlipStarves(p);
      match events[n]
      case AtClient(e) => SideStarves(rules, addr, p, e);
      case AtRemote(e) =>
        SideStarves(rules, addr, p.Flip(), e);
        FlipStarves(OnSide(rules, addr, p.Flip(), e));
    }
  }

  lemma FreshStarves(single: Option<SockAddr>)
    ensures ReadOnce(Accepted(single))
  {
  }

  // ---------------------------------------------------------------- half-close

  /** A write half is shut only after the end of stream of the other side, behind every byte read from
      it; and while the pair lives, it is shut as soon as that end is known and nothing waits. */
  ghost predicate HalfClosed(from: Side, to: Side, live: bool) {
    && (to.log.shut ==> from.log.eof && to.log.written == from.log.read)
    && (live && from.log.eof && to.Chunks() == [] ==> to.log.shut)
  }

  lemma HalfClose(rules: Rules, addr: SockAddr, single: Option<SockAddr>, events: seq<PairEvent>)
    ensures var p := RunPair(rules, addr, single, events);
            && HalfClosed(p.me, p.peer, p.over == None) && HalfClosed(p.peer, p.me, p.over == None)
            && (p.me.log.shut && p.peer.log.shut <==> p.over == Some(Finished))
  {
    RunIsOk(rules, addr, single, events);
    hide RunPair, Flat;
    var p := RunPair(rules, addr, single, events);
    if p.over == None && (p.me.open || p.peer.open) {
      FlowEnds(rules.cache, p.me, p.peer);
      FlowEnds(rules.cache, p.peer, p.me);
    }
  }

  lemma BufferedTouches(cache: nat, p: Pair, bytes: seq<Byte>)
    ensures var q := Buffered(cache, p, bytes);
            q.me.log == p.me.log && q.me.ended == p.me.ended && q.over == p.over && q.peer.open == p.peer.open
  {
  }

  lemma TakeDataTouches(rules: Rules, addr: SockAddr, p: Pair, bytes: seq<Byte>)
    ensures var q := TakeData(rules, addr, p, bytes);
            && q.me.log.eof == p.me.log.eof && q.me.log.read == p.me.log.read + bytes && q.me.ended == p.me.ended
            && (p.peer.open ==> q.over == p.over && q.peer.open)
  {
    hide Buffered;
    var q := Reads(p, bytes);
    BufferedTouches(rules.cache, q, bytes);
    match Target(rules, addr, bytes)
    case Some(a) => BufferedTouches(rules.cache, q.(peer := Dialled(q.peer, a)), bytes);
    case None =>
  }

  lemma {:induction false} LaterReadsSeeNoEnd(rules: Rules, addr: SockAddr, p: Pair, script: seq<ReadOutcome>, n: nat)
    requires n > 0
    ensures ReadReady(rules, addr, p, script, n).me.log.eof == p.me.log.eof
    decreases |script|
  {
    if script != [] && Kernel(p.me.ended, script[0]).Data? {
      var q := TakeData(rules, addr, p, script[0].bytes);
      TakeDataTouches(rules, addr, p, script[0].bytes);
      hide TakeData;
      LaterReadsSeeNoEnd(rules, addr, q, script[1..], n + 1);
    }
  }

  /** An end of stream is acted on exactly when it is the first thing an event reads. */
  lemma EndIsSeenFirst(rules: Rules, addr: SockAddr, p: Pair, script: seq<ReadOutcome>)
    ensures ReadReady(rules, addr, p, script, 0).me.log.eof
        <==> p.me.log.eof || (script != [] && Kernel(p.me.ended, script[0]).Eof?)
  {
    if script != [] {
      var outcome := Kernel(p.me.ended, script[0]);
      if outcome.Data? {
        var q := TakeData(rules, addr, p, outcome.bytes);
        TakeDataTouches(rules, addr, p, outcome.bytes);
        hide TakeData;
        LaterReadsSeeNoEnd(rules, addr, q, script[1..], 1);
      } else if outcome.Eof? {
        var q := TakeEof(p);
        assert q.me.log.eof;
        LaterReadsSeeNoEnd(rules, addr, q, script[1..], 1);
      }
    }
  }

  // ---------------------------------------------------------------- how much one event moves

  /** A socket that is paired is read until it blocks, ends or fails: all of its bytes, at most once. */
  lemma {:induction false} ReadsAll(rules: Rules, addr: SockAddr, p: Pair, script: seq<ReadOutcome>, n: nat)
    requires p.peer.open && p.over == None
    ensures ReadReady(rules, addr, p, script, n).me.log.read == p.me.log.read + DataOf(p.me.ended, script)
    decreases |script|
  {
    if script != [] {
      match Kernel(p.me.ended, script[0])
      case Data(bytes) =>
        var q := TakeData(rules, addr, p, bytes);
        var rest := DataOf(p.me.ended, script[1..]);
        TakeDataTouches(rules, addr, p, bytes);
        hide TakeData;
        assert p.me.log.read + bytes + rest == p.me.log.read + (bytes + rest);
        if q.over == None { ReadsAll(rules, addr, q, script[1..], n + 1); }
      case Eof =>
        var q := TakeEof(p);
        if n == 0 && q.over == None {
          assert DataOf(true, script[1..]) == [];
          assert q.me.log.read + [] == p.me.log.read + [];
          ReadsAll(rules, addr, q, script[1..], n + 1);
        }
      case _ =>
    }
  }

  /** A socket that takes whole chunks, often enough, is given everything that waits. */
  lemma {:induction false} PushDrains(chunks: seq<seq<Byte>>, writes: seq<WriteOutcome>)
    requires |writes| >= |chunks|
    requires forall i :: 0 <= i < |chunks| ==> writes[i].Took? && writes[i].n >= |chunks[i]|
    ensures Push(chunks, writes) == Pushed([], Flat(chunks), Emptied)
    decreases |writes|
  {
    if chunks != [] {
      PushDrains(chunks[1..], writes[1..]);
    }
  }

  // ---------------------------------------------------------------- write by write, event by event

  /** One write takes the front chunk, or the part of it that the socket takes. */
  lemma PushOne(c: seq<Byte>, rest: seq<seq<Byte>>, n: nat)
    ensures var r := Push([c] + rest, [Took(n)]);
            if n < |c| then r == Pushed([c[n..]] + rest, c[..n], Partial)
            else r == Pushed(rest, c, if rest == [] then Emptied else Blocked)
  {
    var chunks, one := [c] + rest, [Took(n)];
    assert chunks[1..] == rest && one[1..] == [];
    assert c + [] == c;
  }

  /** Nothing is written behind a write that blocks or fails, and a failure is noted. */
  lemma PushStops(chunks: seq<seq<Byte>>, w: WriteOutcome, more: seq<WriteOutcome>)
    requires chunks != [] && !w.Took?
    ensures Push(chunks, [w] + more) == Pushed(chunks, [], if w.WriteFail? then Failed else Blocked)
    ensures Push(chunks, []) == Pushed(chunks, [], Blocked) && Push([], more) == Pushed([], [], Emptied)
  {
  }

  /** Behind writes that take whole chunks, the loop goes on with the chunks that are left. */
  lemma {:induction false} PushSplits(chunks: seq<seq<Byte>>, a: seq<WriteOutcome>, b: seq<WriteOutcome>)
    requires (forall w :: w in a ==> w.Took?) && Push(chunks, a).stop != Partial
    ensures var f := Push(chunks, a);
            var g := Push(f.rest, b);
            Push(chunks, a + b) == Pushed(g.rest, f.sent + g.sent, g.stop)
    decreases |a|
  {
    if chunks == [] || a == [] {
      assert a == [] ==> a + b == b;
      assert [] + Push(chunks, b).sent == Push(chunks, b).sent;
    } else {
      assert a[0] in a && (a + b)[0] == a[0] && (a + b)[1..] == a[1..] + b;
      PushSplits(chunks[1..], a[1..], b);
      var f := Push(chunks[1..], a[1..]);
      var g := Push(f.rest, b);
      assert chunks[0] + (f.sent + g.sent) == (chunks[0] + f.sent) + g.sent;
    }
  }

  lemma {:induction false} ReadingLeavesWrites(rules: Rules, addr: SockAddr, p: Pair, script: seq<ReadOutcome>, n: nat)
    requires p.peer.open && p.over == None
    ensures var q := ReadReady(rules, addr, p, script, n);
            q.me.log.written == p.me.log.written && (q.over == None ==> q.me.backlog == p.me.backlog && q.peer.open)
    decreases |script|
  {
    if script != [] {
      match Kernel(p.me.ended, script[0])
      case Data(bytes) =>
        TakeDataTouches(rules, addr, p, bytes);
        TakeDataWritesNone(rules, addr, p, bytes);
        hide TakeData;
        var q := TakeData(rules, addr, p, bytes);
        if q.over == None { ReadingLeavesWrites(rules, addr, q, script[1..], n + 1); }
      case Eof =>
        var q := TakeEof(p);
        EofWritesNone(p);
        hide TakeEof;
        if n == 0 && q.over == None { ReadingLeavesWrites(rules, addr, q, script[1..], n + 1); }
      case _ =>
    }
  }

  lemma EofWritesNone(p: Pair)
    requires p.peer.open
    ensures var q := TakeEof(p);
            q.me.log.written == p.me.log.written && (q.over == None ==> q.me.backlog == p.me.backlog && q.peer.open)
  {
  }

  lemma TakeDataWritesNone(rules: Rules, addr: SockAddr, p: Pair, bytes: seq<Byte>)
    requires p.peer.open
    ensures var q := TakeData(rules, addr, p, bytes);
            q.me.log.written == p.me.log.written && q.me.backlog == p.me.backlog
  {
  }

  lemma WritingReadsNone(cache: nat, p: Pair, writes: seq<WriteOutcome>)
    ensures WriteReady(cache, p, writes).me.log.read == p.me.log.read
  {
    hide Push;
  }

  lemma WritingWrites(cache: nat, p: Pair, writes: seq<WriteOutcome>)
    ensures var q, r := WriteReady(cache, p, writes), Push(p.me.Chunks(), writes);
            && q.me.log.written == p.me.log.written + r.sent
            && (r.stop == Failed ==> q.over == Some(Broken))
  {
    assert p.me.Chunks() == [] ==> Push(p.me.Chunks(), writes) == Pushed([], [], Emptied);
    assert p.me.log.written + [] == p.me.log.written;
    hide Push;
  }

  /** An event on a socket of a pair reads all that is there, and then writes of what waited all that the
      socket takes, unless the reading ended the pair. */
  lemma EventMoves(rules: Rules, addr: SockAddr, p: Pair, e: SideEvent)
    requires p.me.open && p.peer.open && p.over == None
    ensures var q := OnSide(rules, addr, p, e);
            var mid := if e.readable then ReadReady(rules, addr, p, e.script, 0) else p;
            && q.me.log.read == p.me.log.read + (if e.readable then DataOf(p.me.ended, e.script) else [])
            && (mid.over == None ==>
                 q.me.log.written ==
                 p.me.log.written + if e.writable then Push(p.me.Chunks(), e.writes).sent else [])
  {
    ReadsAll(rules, addr, p, e.script, 0);
    ReadingLeavesWrites(rules, addr, p, e.script, 0);
    var mid := if e.readable then ReadReady(rules, addr, p, e.script, 0) else p;
    WritingReadsNone(rules.cache, mid, e.writes);
    WritingWrites(rules.cache, mid, e.writes);
    hide ReadReady, WriteReady, Push, DataOf;
    assert p.me.log.read + [] == p.me.log.read && p.me.log.written + [] == p.me.log.written;
  }

  lemma {:induction false} ReadFailEnds(rules: Rules, addr: SockAddr, p: Pair, script: seq<ReadOutcome>, n: nat)
    requires p.peer.open && p.over == None && !EndOf(p.me.ended, script).Eof?
    ensures var q := ReadReady(rules, addr, p, script, n);
            if EndOf(p.me.ended, script).ReadFail? then q.over == Some(Broken) && !q.me.open && !q.peer.open
            else q.over == None
    decreases |script|
  {
    if script != [] {
      match Kernel(p.me.ended, script[0])
      case Data(bytes) =>
        TakeDataTouches(rules, addr, p, bytes);
        hide TakeData;
        ReadFailEnds(rules, addr, TakeData(rules, addr, p, bytes), script[1..], n + 1);
      case _ =>
    }
  }

  /** A read that fails ends the pair, and so does a write that fails. */
  lemma ErrorsEnd(rules: Rules, addr: SockAddr, p: Pair, e: SideEvent)
    requires p.me.open && p.peer.open && p.over == None
    ensures e.readable && EndOf(p.me.ended, e.script).ReadFail? ==> OnSide(rules, addr, p, e).over == Some(Broken)
    ensures var mid := if e.readable then ReadReady(rules, addr, p, e.script, 0) else p;
            e.writable && mid.over == None && Push(p.me.Chunks(), e.writes).stop == Failed ==>
              OnSide(rules, addr, p, e).over == Some(Broken)
  {
    if e.readable && EndOf(p.me.ended, e.script).ReadFail? { ReadFailEnds(rules, addr, p, e.script, 0); }
    ReadFailLeavesNone(rules, addr, p, e.script);
    ReadingLeavesWrites(rules, addr, p, e.script, 0);
    WritingWrites(rules.cache, if e.readable then ReadReady(rules, addr, p, e.script, 0) else p, e.writes);
    hide ReadReady, Push, EndOf, AfterWrite;
  }

  lemma ReadFailLeavesNone(rules: Rules, addr: SockAddr, p: Pair, script: seq<ReadOutcome>)
    requires p.peer.open && p.over == None
    ensures EndOf(p.me.ended, script).ReadFail? ==> ReadReady(rules, addr, p, script, 0).me.Chunks() == []
  {
    if EndOf(p.me.ended, script).ReadFail? { FailedIsClosed(rules, addr, p, script, 0); }
  }

  lemma {:induction false} FailedIsClosed(rules: Rules, addr: SockAddr, p: Pair, script: seq<ReadOutcome>, n: nat)
    requires p.peer.open && p.over == None && EndOf(p.me.ended, script).ReadFail?
    ensures ReadReady(rules, addr, p, script, n).me.backlog == None
    decreases |script|
  {
    if Kernel(p.me.ended, script[0]).Data? {
      TakeDataTouches(rules, addr, p, script[0].bytes);
      hide TakeData;
      FailedIsClosed(rules, addr, TakeData(rules, addr, p, script[0].bytes), script[1..], n + 1);
    }
  }

  // ---------------------------------------------------------------- how a pair ends

  predicate Clean(e: SideEvent) {
    && (forall r :: r in e.script ==> !r.ReadFail?)
    && (forall w :: w in e.writes ==> !w.WriteFail?)
  }

  function OfPair(e: PairEvent): SideEvent { match e case AtClient(s) => s case AtRemote(s) => s }

  /** Without a chosen target, a pair ends only before anything was read, or on first bytes for which
      no target is to be had. */
  ghost predicate Excused(rules: Rules, addr: SockAddr, client: Side, remote: Side, over: Option<Ending>) {
    && over != Some(Broken)
    && (over == Some(Unused) ==> client.log.read == [])
    && (over == Some(NoTarget) ==> client.log.read != [] && Target(rules, addr, client.log.read) == None)
    && (over == Some(Unused) || over == Some(NoTarget) ==> client.log.written == [] && remote.log == NO_LOG)
  }

  lemma {:induction false} PushIsClean(chunks: seq<seq<Byte>>, writes: seq<WriteOutcome>)
    requires forall w :: w in writes ==> !w.WriteFail?
    ensures Push(chunks, writes).stop != Failed
    decreases |writes|
  {
    if writes != [] {
      assert writes[0] in writes;
      if chunks != [] { PushIsClean(chunks[1..], writes[1..]); }
    }
  }

  lemma WriteIsExcused(cache: nat, p: Pair, writes: seq<WriteOutcome>)
    requires forall w :: w in writes ==> !w.WriteFail?
    ensures var q := WriteReady(cache, p, writes);
            q.over == p.over || q.over == Some(Finished)
  {
    PushIsClean(p.me.Chunks(), writes);
  }

  lemma TakeDataIsExcused(rules: Rules, addr: SockAddr, p: Pair, bytes: seq<Byte>)
    requires Live(rules.cache, p) && p.over == None && p.me.open && bytes != []
    ensures var q := TakeData(rules, addr, p, bytes);
            && (q.over == None || q.over == Some(NoTarget))
            && (p.peer.open ==> q.over == None && q.peer.open)
            && Excused(rules, addr, q.me, q.peer, q.over)
  {
    assert !p.peer.open ==> [] + bytes == bytes && p.me.log == NO_LOG && p.peer.log == NO_LOG;
    hide Flow, Buffered;
    var q := Reads(p, bytes);
    BufferedStays(rules.cache, q, bytes);
    match Target(rules, addr, bytes)
    case Some(a) => BufferedStays(rules.cache, q.(peer := Dialled(q.peer, a)), bytes);
    case None =>
  }

  lemma BufferedStays(cache: nat, p: Pair, bytes: seq<Byte>)
    ensures Buffered(cache, p, bytes).over == p.over && Buffered(cache, p, bytes).peer.open == p.peer.open
  {
  }

  lemma TakeEofIsExcused(rules: Rules, addr: SockAddr, p: Pair)
    requires Live(rules.cache, p) && p.over == None && p.me.open
    ensures var q := TakeEof(p);
            && (p.peer.open ==> q.over == None || q.over == Some(Finished))
            && (q.over == None ==> q.peer.open)
            && Excused(rules, addr, q.me, q.peer, q.over)
  {
  }

  lemma {:induction false} ReadIsExcused(rules: Rules, addr: SockAddr, p: Pair, script: seq<ReadOutcome>, n: nat)
    requires Live(rules.cache, p) && p.over == None && p.me.open
    requires forall r :: r in script ==> !r.ReadFail?
    ensures var q := ReadReady(rules, addr, p, script, n);
            && Excused(rules, addr, q.me, q.peer, q.over)
            && (p.peer.open ==> q.over == None || q.over == Some(Finished))
    decreases |script|
  {
    if script != [] {
      assert script[0] in script;
      match Kernel(p.me.ended, script[0])
      case Data(bytes) =>
        TakeDataKeeps(rules, addr, p, bytes);
        TakeDataIsExcused(rules, addr, p, bytes);
        hide Live, TakeData;
        var q := TakeData(rules, addr, p, bytes);
        if q.over == None { ReadIsExcused(rules, addr, q, script[1..], n + 1); }
      case Eof =>
        if n == 0 {
          TakeEofKeeps(rules.cache, p);
          TakeEofIsExcused(rules, addr, p);
          hide Live, TakeEof;
          var q := TakeEof(p);
          if q.over == None { ReadIsExcused(rules, addr, q, script[1..], n + 1); }
        }
      case _ =>
    }
  }

  lemma OnSideIsExcused(rules: Rules, addr: SockAddr, p: Pair, e: SideEvent)
    requires PairOk(rules.cache, p) && p.over == None && p.me.open && Clean(e)
    ensures var q := OnSide(rules, addr, p, e);
            && Excused(rules, addr, q.me, q.peer, q.over)
            && (p.peer.open ==> q.over == None || q.over == Some(Finished))
  {
    ReadIsExcused(rules, addr, p, e.script, 0);
    ReadReadyKeeps(rules, addr, p, e.script, 0);
    var q := if e.readable then ReadReady(rules, addr, p, e.script, 0) else p;
    hide Live, ReadReady;
    WriteIsExcused(rules.cache, q, e.writes);
    if q.over.Some? {
      assert q.me.Chunks() == [];
    }
  }

  lemma {:induction false} ReadKeepsSockets(rules: Rules, addr: SockAddr, p: Pair, script: seq<ReadOutcome>, n: nat)
    ensures var q := ReadReady(rules, addr, p, script, n);
            q.over == None ==> q.me.open == p.me.open && (p.peer.open ==> q.peer.open)
    decreases |script|
  {
    if script != [] {
      match Kernel(p.me.ended, script[0])
      case Data(bytes) =>
        var q := TakeData(rules, addr, p, bytes);
        assert q.over == None ==> q.me.open == p.me.open && (p.peer.open ==> q.peer.open);
        hide TakeData;
        if q.over == None { ReadKeepsSockets(rules, addr, q, script[1..], n + 1); }
      case Eof =>
        if n == 0 && TakeEof(p).over == None { ReadKeepsSockets(rules, addr, TakeEof(p), script[1..], n + 1); }
      case _ =>
    }
  }

  lemma OnSideKeepsSockets(rules: Rules, addr: SockAddr, p: Pair, e: SideEvent)
    ensures var q := OnSide(rules, addr, p, e);
            q.over == None ==> q.me.open == p.me.open && (p.peer.open ==> q.peer.open)
  {
    ReadKeepsSockets(rules, addr, p, e.script, 0);
    hide ReadReady, Push;
  }

  /** While a pair lives its client is there, and so is the target if it was connected at once. */
  lemma {:induction false} SocketsStay(rules: Rules, addr: SockAddr, single: Option<SockAddr>, events: seq<PairEvent>)
    ensures var p := RunPair(rules, addr, single, events);
            p.over == None ==> p.me.open && (single.Some? ==> p.peer.open)
  {
    if events != [] {
      var n := |events| - 1;
      var p := RunPair(rules, addr, single, events[..n]);
      SocketsStay(rules, addr, single, events[..n]);
      RunIsOk(rules, addr, single, events[..n]);
      if p.over.Some? { GoneStays(rules, addr, p, events[n]); }
      match events[n]
      case AtClient(e) => OnSideKeepsSockets(rules, addr, p, e);
      case AtRemote(e) => OnSideKeepsSockets(rules, addr, p.Flip(), e);
      hide OnSide;
    }
  }

  /** A pair that is gone is left alone. */
  lemma GoneStays(rules: Rules, addr: SockAddr, p: Pair, e: PairEvent)
    requires PairOk(rules.cache, p) && p.over.Some?
    ensures OnPair(rules, addr, p, e) == p
  {
  }

  /** A pair whose sockets report no I/O error goes away only when both directions are drained and
      shut; or, as long as no target was chosen for it, when its client closed without a byte, or sent
      first bytes for which no target is to be had. */
  lemma {:induction false} EndsOnlyWhenDone(rules: Rules, addr: SockAddr, single: Option<SockAddr>,
                                            events: seq<PairEvent>)
    requires forall e :: e in events ==> Clean(OfPair(e))
    ensures var p := RunPair(rules, addr, single, events);
            && (p.over == Some(Finished) ==>
                  p.me.log.written == p.peer.log.read && p.peer.log.written == p.me.log.read && p.me.log.eof
                    && p.peer.log.eof)
            && Excused(rules, addr, p.me, p.peer, p.over)
            && (single.Some? ==> p.over == None || p.over == Some(Finished))
  {
    RunIsOk(rules, addr, single, events);
    if events != [] {
      var n := |events| - 1;
      var p, e := RunPair(rules, addr, single, events[..n]), events[n];
      assert e in events;
      EndsOnlyWhenDone(rules, addr, single, events[..n]);
      RunIsOk(rules, addr, single, events[..n]);
      SocketsStay(rules, addr, single, events[..n]);
      hide RunPair;
      EventIsExcused(rules, addr, p, e);
    }
  }

  lemma EventIsExcused(rules: Rules, addr: SockAddr, p: Pair, e: PairEvent)
    requires PairOk(rules.cache, p) && Excused(rules, addr, p.me, p.peer, p.over) && Clean(OfPair(e))
    requires p.over == None ==> p.me.open
    ensures var q := OnPair(rules, addr, p, e);
            && Excused(rules, addr, q.me, q.peer, q.over)
            && (p.peer.open ==> q.over == None || q.over == Some(Finished))
            && (p.over.Some? ==> q == p)
  {
    if p.over.Some? {
      GoneStays(rules, addr, p, e);
    } else {
      match e
      case AtClient(s) => OnSideIsExcused(rules, addr, p, s);
      case AtRemote(s) =>
        FlipOk(rules.cache, p);
        if p.peer.open { OnSideIsExcused(rules, addr, p.Flip(), s); }
    }
  }
}
