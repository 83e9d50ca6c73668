/** One relayed connection of the forwarder: a client socket and the socket of its target, the chunks
    waiting for each, and how each event changes them. */
module ForwardPair {
  import opened Bytes

  datatype Backlog = Backlog(chunks: seq<seq<Byte>>, total: nat)

  /** What has passed through a socket: the bytes read from it and written to it, whether its end of
      stream was acted on, and whether its write half was shut. */
  datatype Log = Log(read: seq<Byte>, written: seq<Byte>, eof: bool, shut: bool)

  const NO_LOG: Log := Log([], [], false, false)
  const NO_INTEREST: Interest := Interest(false, false)

  /** Everything the tables say about one socket. to is the address that a target's socket is connected
      to; ended is the socket's own state: end of stream was returned by a read. */
  datatype Side = Side(
    open: bool, to: Option<SockAddr>, interest: Interest, backlog: Option<Backlog>,
    shutdownMe: bool, alreadyShutdown: bool, ended: bool, log: Log)
  {
    function Chunks(): seq<seq<Byte>> { if backlog.Some? then backlog.value.chunks else [] }

    function Readable(on: bool): Side { this.(interest := interest.(readable := on)) }

    function Writable(on: bool): Side { this.(interest := interest.(writable := on)) }

    function Closed(): Side {
      this.(open := false, to := None, interest := NO_INTEREST, backlog := None, shutdownMe := false,
            alreadyShutdown := false)
    }

    function Shut(): Side { this.(log := log.(shut := true)) }
  }

  const NO_SIDE: Side := Side(false, None, NO_INTEREST, None, false, false, false, NO_LOG)

  function Opened(s: Side): Side { s.(open := true, interest := Interest(true, false)) }

  function Dialled(s: Side, target: SockAddr): Side { Opened(s).(to := Some(target)) }

  /** How a pair ended: both directions done, closed before a target was chosen, no target to be had,
      or an I/O error. */
  datatype Ending = Finished | Unused | NoTarget | Broken

  datatype Pair = Pair(me: Side, peer: Side, over: Option<Ending>) {
    function Flip(): Pair { Pair(peer, me, over) }
  }

  /** The pause threshold, and the rules that choose a target from a client's first bytes. */
  datatype Rules = Rules(cache: nat, decide: (seq<Byte>, SockAddr) -> Option<SockAddr>, connect: SockAddr -> bool)

  function Removed(p: Pair, ending: Ending): Pair { Pair(p.me.Closed(), p.peer.Closed(), Some(ending)) }

  // ---------------------------------------------------------------- reading

  function Reads(p: Pair, bytes: seq<Byte>): Pair {
    p.(me := p.me.(log := p.me.log.(read := p.me.log.read + bytes)))
  }

  /** Bytes read from a socket wait for its peer; at the threshold, reading pauses. */
  function Buffered(cache: nat, p: Pair, bytes: seq<Byte>): Pair {
    match p.peer.backlog
    case Some(b) =>
      var total := b.total + |bytes|;
      Pair(if total >= cache then p.me.Readable(false) else p.me,
           p.peer.(backlog := Some(Backlog(b.chunks + [bytes], total))), p.over)
    case None =>
      Pair(if |bytes| >= cache then p.me.Readable(false) else p.me,
           p.peer.(backlog := Some(Backlog([bytes], |bytes|))).Writable(true), p.over)
  }

  function Target(rules: Rules, addr: SockAddr, bytes: seq<Byte>): Option<SockAddr> {
    match rules.decide(bytes, addr)
    case Some(a) => if rules.connect(a) then Some(a) else None
    case None => None
  }

  function TakeData(rules: Rules, addr: SockAddr, p: Pair, bytes: seq<Byte>): Pair {
    var q := Reads(p, bytes);
    if q.peer.open then Buffered(rules.cache, q, bytes)
    else
      match Target(rules, addr, bytes)
      case Some(a) => Buffered(rules.cache, q.(peer := Dialled(q.peer, a)), bytes)
      case None => Removed(q, NoTarget)
  }

  /** End of stream: shut the peer's write half, at once or once it has taken what waits for it. */
  function TakeEof(p: Pair): Pair {
    var me := p.me.(ended := true, log := p.me.log.(eof := true));
    var q := p.(me := me);
    if p.peer.backlog.Some? then q.(peer := p.peer.(shutdownMe := true))
    else if !p.peer.open then Removed(q, Unused)
    else if me.alreadyShutdown then Removed(q.(peer := p.peer.Shut()), Finished)
    else q.(peer := p.peer.Shut().Writable(false).(alreadyShutdown := true))
  }

  /** The read loop. An end of stream that follows another read of the same event is left alone. */
  function ReadReady(rules: Rules, addr: SockAddr, p: Pair, script: seq<ReadOutcome>, n: nat): Pair
    decreases |script|
  {
    if script == [] then p else
      match Kernel(p.me.ended, script[0])
      case ReadBlock => p
      case ReadFail => Removed(p, Broken)
      case Eof =>
        if n > 0 then p.(me := p.me.(ended := true)) else
          var q := TakeEof(p);
          if q.over.Some? then q else ReadReady(rules, addr, q, script[1..], n + 1)
      case Data(bytes) =>
        var q := TakeData(rules, addr, p, bytes);
        if q.over.Some? then q else ReadReady(rules, addr, q, script[1..], n + 1)
  }

  /** Whether any of the chunks that a read loop would still take has a target. */
  predicate FindsTarget(rules: Rules, addr: SockAddr, script: seq<ReadOutcome>) {
    script != [] && Kernel(false, script[0]).Data? &&
    (Target(rules, addr, script[0].bytes).Some? || FindsTarget(rules, addr, script[1..]))
  }

  /** A pair that goes away for want of a target is still read on: when a later chunk of the same event
      has one, a connection is made for a pair that is not in the tables any more. */
  predicate Orphans(rules: Rules, addr: SockAddr, p: Pair, script: seq<ReadOutcome>) {
    && !p.peer.open && script != [] && Kernel(p.me.ended, script[0]).Data?
    && Target(rules, addr, script[0].bytes).None? && FindsTarget(rules, addr, script[1..])
  }

  // ---------------------------------------------------------------- writing

  datatype Stop = Emptied | Partial | Blocked | Failed

  /** What a run of writes did: the chunks left, the bytes taken, and why it stopped. */
  datatype Pushed = Pushed(rest: seq<seq<Byte>>, sent: seq<Byte>, stop: Stop)

  /** Whole chunks are written until one is taken in part, the socket blocks or fails, or none is left. */
  function Push(chunks: seq<seq<Byte>>, writes: seq<WriteOutcome>): Pushed
    decreases |writes|
  {
    if chunks == [] then Pushed([], [], Emptied)
    else if writes == [] || writes[0].WriteBlock? then Pushed(chunks, [], Blocked)
    else if writes[0].WriteFail? then Pushed(chunks, [], Failed)
    else if writes[0].n < |chunks[0]| then
      Pushed([chunks[0][writes[0].n..]] + chunks[1..], chunks[0][..writes[0].n], Partial)
    else
      var r := Push(chunks[1..], writes[1..]);
      r.(sent := chunks[0] + r.sent)
  }

  function Monus(a: nat, b: nat): nat { if a <= b then 0 else a - b }

  /** Reading the peer resumes when what waits falls below the threshold. */
  function Resumed(cache: nat, peer: Side, total: nat, sent: nat): Side {
    if total >= cache && Monus(total, sent) < cache then peer.Readable(true) else peer
  }

  function AfterWrite(cache: nat, p: Pair, total: nat, r: Pushed): Pair {
    var me := p.me.(log := p.me.log.(written := p.me.log.written + r.sent));
    var peer := Resumed(cache, p.peer, total, |r.sent|);
    match r.stop
    case Failed => Removed(p.(me := me), Broken)
    case Partial => Pair(me.(backlog := Some(Backlog(r.rest, Monus(total, |r.sent|)))), peer, p.over)
    case Blocked => Pair(me.(backlog := Some(Backlog(r.rest, Monus(total, |r.sent|)))), peer, p.over)
    case Emptied =>
      var idle := me.Writable(false).(backlog := Some(Backlog([], total)));
      if !me.shutdownMe then Pair(idle.(backlog := None), peer, p.over)
      else if peer.alreadyShutdown then Removed(Pair(idle.Shut(), peer, p.over), Finished)
      else Pair(idle.Shut().(alreadyShutdown := true), peer, p.over)
  }

  /** The write loop. */
  function WriteReady(cache: nat, p: Pair, writes: seq<WriteOutcome>): Pair {
    if p.me.Chunks() == [] then p
    else AfterWrite(cache, p, p.me.backlog.value.total, Push(p.me.Chunks(), writes))
  }

  // ---------------------------------------------------------------- what always holds

  ghost predicate NonEmpty(chunks: seq<seq<Byte>>) { forall c :: c in chunks ==> c != [] }

  /** One direction of a live pair: what was read is what was written, then what waits; the counter is
      the number of bytes that wait; the writer is watched exactly when something waits; the reader
      is not while, and only while, enough does; and the end of stream is passed on exactly once nothing waits. */
  ghost predicate Flow(cache: nat, from: Side, to: Side) {
    var chunks := to.Chunks();
    && to.log.written + Flat(chunks) == from.log.read
    && NonEmpty(chunks)
    && (chunks != [] ==> to.backlog.value.total == |Flat(chunks)|)
    && (to.interest.writable <==> chunks != [])
    && (cache >= 1 && from.open ==> from.interest.readable || (chunks != [] && to.backlog.value.total >= cache))
    && (from.interest.readable ==> from.open && (chunks != [] ==> to.backlog.value.total < cache))
    && (to.backlog.Some? ==> to.open && (chunks == [] ==> to.shutdownMe))
    && (to.shutdownMe ==> from.log.eof && to.backlog.Some?)
    && to.alreadyShutdown == to.log.shut
    && (to.log.shut ==> from.log.eof)
    && (from.log.eof ==> from.ended && (to.log.shut <==> chunks == []))
    && (from.log.eof && chunks != [] ==> to.shutdownMe)
  }

  /** A live pair; with a single socket, nothing has happened yet. */
  ghost predicate Live(cache: nat, p: Pair) {
    && (p.me.open || p.peer.open)
    && Flow(cache, p.me, p.peer) && Flow(cache, p.peer, p.me)
    && !(p.me.log.shut && p.peer.log.shut)
    && (!p.me.open || !p.peer.open ==> p.me.log == NO_LOG && p.peer.log == NO_LOG)
  }

  /** One direction of a pair that is gone: nothing was written that was not read, in order, and its
      write half was shut only behind all of it. */
  ghost predicate Done(from: Log, to: Log) {
    && to.written <= from.read
    && (to.shut ==> from.eof && to.written == from.read)
  }

  ghost predicate Gone(p: Pair, ending: Ending) {
    && p.me == p.me.Closed() && p.peer == p.peer.Closed()
    && Done(p.me.log, p.peer.log) && Done(p.peer.log, p.me.log)
    && (ending == Finished <==> p.me.log.shut && p.peer.log.shut)
    && (ending == Unused ==> p.me.log.read == [] && p.peer.log.read == [])
    && (ending == NoTarget ==> p.me.log.written == [] && p.peer.log.written == [])
  }

  ghost predicate PairOk(cache: nat, p: Pair) {
    match p.over
    case Some(ending) => Gone(p, ending)
    case None => (p.me == NO_SIDE && p.peer == NO_SIDE) || Live(cache, p)
  }

  lemma FlipOk(cache: nat, p: Pair)
    requires PairOk(cache, p)
    ensures PairOk(cache, p.Flip())
  {
  }

  lemma NothingWaits()
    ensures Flat([]) == []
  {
  }

  lemma SomethingWaits(chunks: seq<seq<Byte>>)
    requires NonEmpty(chunks) && chunks != []
    ensures Flat(chunks) != []
  {
    assert chunks[0] in chunks;
  }

  lemma FlowEnds(cache: nat, from: Side, to: Side)
    requires Flow(cache, from, to)
    ensures Done(from.log, to.log)
  {
  }

  lemma RemovedOk(cache: nat, p: Pair, ending: Ending)
    requires Live(cache, p)
    requires ending == Broken
    ensures Gone(Removed(p, ending), ending)
  {
  }

  // ---------------------------------------------------------------- every step keeps it

  lemma BufferedFlow(cache: nat, from: Side, to: Side, bytes: seq<Byte>)
    requires Flow(cache, from, to) && from.open && to.open && bytes != [] && !from.log.eof
    ensures var q := Buffered(cache, Pair(from, to, None), bytes);
            Flow(cache, q.me.(log := q.me.log.(read := q.me.log.read + bytes)), q.peer)
  {
    FlatPush(to.Chunks(), bytes);
    assert Flat([bytes]) == bytes + Flat([]);
    assert to.log.written + (Flat(to.Chunks()) + bytes) == from.log.read + bytes;
    assert to.Chunks() + [bytes] != [];
    if to.backlog.None? {
      assert [] + [bytes] == [bytes];
    }
  }

  /** A direction reads only these of its two sockets. */
  lemma OtherFlow(cache: nat, from: Side, to: Side, from': Side, to': Side)
    requires Flow(cache, from, to)
    requires to'.backlog == to.backlog && to'.shutdownMe == to.shutdownMe && to'.alreadyShutdown == to.alreadyShutdown
    requires to'.open == to.open && to'.interest.writable == to.interest.writable
    requires to'.log.written == to.log.written && to'.log.shut == to.log.shut
    requires from'.open == from.open && from'.interest.readable == from.interest.readable && from'.ended == from.ended
    requires from'.log.read == from.log.read && from'.log.eof == from.log.eof
    ensures Flow(cache, from', to')
  {
  }

  lemma BufferedKeeps(cache: nat, p: Pair, bytes: seq<Byte>)
    requires Live(cache, p) && p.over == None && p.me.open && p.peer.open && bytes != [] && !p.me.log.eof
    ensures Live(cache, Buffered(cache, Reads(p, bytes), bytes)) && Buffered(cache, Reads(p, bytes), bytes).over == None
  {
    BufferedFlow(cache, p.me, p.peer, bytes);
    var q := Buffered(cache, Reads(p, bytes), bytes);
    OtherFlow(cache, p.peer, p.me, q.peer, q.me);
    hide Flow, Flat;
  }

  lemma OpenedOk(cache: nat, p: Pair, a: SockAddr)
    requires Live(cache, p) && p.me.open && !p.peer.open
    ensures Live(cache, p.(peer := Dialled(p.peer, a)))
  {
    if p.me.Chunks() != [] { SomethingWaits(p.me.Chunks()); }
  }

  lemma TakeDataKeeps(rules: Rules, addr: SockAddr, p: Pair, bytes: seq<Byte>)
    requires Live(rules.cache, p) && p.over == None && p.me.open && !p.me.ended && bytes != []
    ensures PairOk(rules.cache, TakeData(rules, addr, p, bytes))
    ensures var q := TakeData(rules, addr, p, bytes);
            q.over == None ==> Live(rules.cache, q) && q.me.open
  {
    assert !p.me.log.eof;
    if p.peer.open {
      BufferedKeeps(rules.cache, p, bytes);
    } else if Target(rules, addr, bytes).Some? {
      var a := Target(rules, addr, bytes).value;
      OpenedOk(rules.cache, p, a);
      BufferedKeeps(rules.cache, p.(peer := Dialled(p.peer, a)), bytes);
    }
    hide Flow;
  }

  lemma TakeEofKeeps(cache: nat, p: Pair)
    requires Live(cache, p) && p.over == None && p.me.open
    ensures PairOk(cache, TakeEof(p)) && TakeEof(p).me.ended
    ensures TakeEof(p).over == None ==> Live(cache, TakeEof(p)) && TakeEof(p).me.open
  {
    FlowEnds(cache, p.me, p.peer);
    FlowEnds(cache, p.peer, p.me);
    NothingWaits();
    assert p.peer.log.written + [] == p.peer.log.written;
  }

  lemma {:induction false} ReadReadyKeeps(rules: Rules, addr: SockAddr, p: Pair, script: seq<ReadOutcome>, n: nat)
    requires Live(rules.cache, p) && p.over == None && p.me.open
    ensures PairOk(rules.cache, ReadReady(rules, addr, p, script, n))
    decreases |script|
  {
    if script != [] {
      match Kernel(p.me.ended, script[0])
      case ReadBlock =>
      case ReadFail => RemovedOk(rules.cache, p, Broken);
      case Eof =>
        if n == 0 {
          TakeEofKeeps(rules.cache, p);
          hide Live, TakeEof;
          if TakeEof(p).over.None? { ReadReadyKeeps(rules, addr, TakeEof(p), script[1..], n + 1); }
        } else {
          LaterEofKeeps(rules.cache, p);
        }
      case Data(bytes) =>
        TakeDataKeeps(rules, addr, p, bytes);
        hide Live, TakeData;
        if TakeData(rules, addr, p, bytes).over.None? {
          ReadReadyKeeps(rules, addr, TakeData(rules, addr, p, bytes), script[1..], n + 1);
        }
    }
  }

  lemma LaterEofKeeps(cache: nat, p: Pair)
    requires Live(cache, p) && p.over == None
    ensures Live(cache, p.(me := p.me.(ended := true)))
  {
  }

  lemma {:induction false} PushConserves(chunks: seq<seq<Byte>>, writes: seq<WriteOutcome>)
    requires NonEmpty(chunks)
    ensures var r := Push(chunks, writes);
            && r.sent + Flat(r.rest) == Flat(chunks) && NonEmpty(r.rest)
            && (r.rest == [] <==> r.stop == Emptied)
    decreases |writes|
  {
    if chunks != [] && writes != [] && writes[0].Took? {
      var c, t, n := chunks[0], chunks[1..], writes[0].n;
      assert c in chunks && forall d :: d in t ==> d in chunks;
      if n < |c| {
        var rest := [c[n..]] + t;
        assert rest[1..] == t;
        assert c[..n] + (c[n..] + Flat(t)) == c + Flat(t);
      } else {
        PushConserves(t, writes[1..]);
        var r := Push(t, writes[1..]);
        assert c + r.sent + Flat(r.rest) == c + (r.sent + Flat(r.rest));
      }
    }
  }

  lemma SentFlow(cache: nat, from: Side, to: Side, r: Pushed)
    requires Flow(cache, from, to) && to.Chunks() != [] && from.open
    requires r.sent + Flat(r.rest) == Flat(to.Chunks()) && NonEmpty(r.rest) && r.rest != []
    ensures var total := to.backlog.value.total;
            var me := to.(log := to.log.(written := to.log.written + r.sent),
                          backlog := Some(Backlog(r.rest, Monus(total, |r.sent|))));
            Flow(cache, Resumed(cache, from, total, |r.sent|), me)
  {
  }

  lemma EmptiedFlow(cache: nat, from: Side, to: Side, r: Pushed)
    requires Flow(cache, from, to) && to.Chunks() != [] && from.open && r.sent == Flat(to.Chunks())
    ensures var total := to.backlog.value.total;
            var idle := to.(log := to.log.(written := to.log.written + r.sent),
                            backlog := Some(Backlog([], total))).Writable(false);
            var reader := Resumed(cache, from, total, |r.sent|);
            if to.shutdownMe then Flow(cache, reader, idle.Shut().(alreadyShutdown := true))
            else Flow(cache, reader, idle.(backlog := None))
  {
  }

  lemma FailedKeeps(cache: nat, p: Pair, r: Pushed)
    requires Live(cache, p) && p.me.Chunks() != [] && r.stop == Failed && r.sent + Flat(r.rest) == Flat(p.me.Chunks())
    ensures Gone(AfterWrite(cache, p, p.me.backlog.value.total, r), Broken)
  {
  }

  lemma HeldKeeps(cache: nat, p: Pair, r: Pushed)
    requires Live(cache, p) && p.over == None && p.me.Chunks() != [] && p.me.open && p.peer.open
    requires r.stop == Partial || r.stop == Blocked
    requires r.sent + Flat(r.rest) == Flat(p.me.Chunks()) && NonEmpty(r.rest) && r.rest != []
    ensures Live(cache, AfterWrite(cache, p, p.me.backlog.value.total, r))
    ensures AfterWrite(cache, p, p.me.backlog.value.total, r).over == None
  {
    var q := AfterWrite(cache, p, p.me.backlog.value.total, r);
    SentFlow(cache, p.peer, p.me, r);
    OtherFlow(cache, p.me, p.peer, q.me, q.peer);
    hide Flow;
  }

  lemma EmptiedKeeps(cache: nat, p: Pair, r: Pushed)
    requires Live(cache, p) && p.over == None && p.me.Chunks() != [] && p.me.open && p.peer.open
    requires r.stop == Emptied && r.sent == Flat(p.me.Chunks())
    ensures PairOk(cache, AfterWrite(cache, p, p.me.backlog.value.total, r))
  {
    var q := AfterWrite(cache, p, p.me.backlog.value.total, r);
    EmptiedFlow(cache, p.peer, p.me, r);
    FlowEnds(cache, p.me, p.peer);
    if q.over == None {
      OtherFlow(cache, p.me, p.peer, q.me, q.peer);
      assert !p.me.log.shut && !(q.me.log.shut && q.peer.log.shut);
      hide Flow;
    } else {
      assert q.me.log.shut && q.peer.log.shut && q.peer.log == p.peer.log && q.me.log.written == p.peer.log.read
        && p.peer.log.eof;
      hide Flow;
    }
  }

  lemma AfterWriteKeeps(cache: nat, p: Pair, writes: seq<WriteOutcome>)
    requires Live(cache, p) && p.over == None && p.me.Chunks() != []
    ensures PairOk(cache, WriteReady(cache, p, writes))
  {
    var r := Push(p.me.Chunks(), writes);
    PushConserves(p.me.Chunks(), writes);
    SomethingWaits(p.me.Chunks());
    assert p.peer.log.read != [];
    assert p.peer.open && p.me.open;
    NothingWaits();
    assert r.stop == Emptied ==> r.sent + [] == r.sent;
    hide Live, Flow, AfterWrite, Push, Gone;
    match r.stop
    case Failed => FailedKeeps(cache, p, r); AfterFailure(cache, p, r);
    case Partial => HeldKeeps(cache, p, r);
    case Blocked => HeldKeeps(cache, p, r);
    case Emptied => EmptiedKeeps(cache, p, r);
  }

  lemma AfterFailure(cache: nat, p: Pair, r: Pushed)
    requires p.me.Chunks() != [] && r.stop == Failed
    ensures AfterWrite(cache, p, p.me.backlog.value.total, r).over == Some(Broken)
  {
  }

  lemma WriteReadyKeeps(cache: nat, p: Pair, writes: seq<WriteOutcome>)
    requires PairOk(cache, p)
    ensures PairOk(cache, WriteReady(cache, p, writes))
  {
    hide Flow;
    if p.me.Chunks() != [] {
      assert p.over == None;
      AfterWriteKeeps(cache, p, writes);
    }
  }

  // ---------------------------------------------------------------- whole runs

  datatype SideEvent = SideEvent(readable: bool, script: seq<ReadOutcome>, writable: bool, writes: seq<WriteOutcome>)

  /** An event on a socket of the pair; one for a socket that is not in the tables is skipped. */
  function OnSide(rules: Rules, addr: SockAddr, p: Pair, e: SideEvent): Pair {
    if !p.me.open then p else
      var q := if e.readable then ReadReady(rules, addr, p, e.script, 0) else p;
      if e.writable then WriteReady(rules.cache, q, e.writes) else q
  }

  lemma OnSideKeeps(rules: Rules, addr: SockAddr, p: Pair, e: SideEvent)
    requires PairOk(rules.cache, p)
    ensures PairOk(rules.cache, OnSide(rules, addr, p, e))
  {
    if p.me.open {
      assert p.over == None && Live(rules.cache, p);
      ReadReadyKeeps(rules, addr, p, e.script, 0);
      hide PairOk;
      WriteReadyKeeps(rules.cache, if e.readable then ReadReady(rules, addr, p, e.script, 0) else p, e.writes);
    }
  }

  datatype PairEvent = AtClient(e: SideEvent) | AtRemote(e: SideEvent)

  /** A pair as seen from its client. */
  function OnPair(rules: Rules, addr: SockAddr, p: Pair, e: PairEvent): Pair {
    match e
    case AtClient(s) => OnSide(rules, addr, p, s)
    case AtRemote(s) => OnSide(rules, addr, p.Flip(), s).Flip()
  }

  /** An accepted client, with its target connected already when there is only one. */
  function Accepted(single: Option<SockAddr>): Pair {
    Pair(Opened(NO_SIDE), if single.Some? then Dialled(NO_SIDE, single.value) else NO_SIDE, None)
  }

  function RunPair(rules: Rules, addr: SockAddr, single: Option<SockAddr>, events: seq<PairEvent>): Pair {
    if events == [] then Accepted(single)
    else OnPair(rules, addr, RunPair(rules, addr, single, events[..|events| - 1]), events[|events| - 1])
  }

  lemma AcceptedOk(cache: nat, single: Option<SockAddr>)
    ensures PairOk(cache, Accepted(single))
  {
  }

  lemma OnPairKeeps(rules: Rules, addr: SockAddr, p: Pair, e: PairEvent)
    requires PairOk(rules.cache, p)
    ensures PairOk(rules.cache, OnPair(rules, addr, p, e))
  {
    hide PairOk, OnSide;
    match e
    case AtClient(s) => OnSideKeeps(rules, addr, p, s);
    case AtRemote(s) =>
      FlipOk(rules.cache, p);
      OnSideKeeps(rules, addr, p.Flip(), s);
      FlipOk(rules.cache, OnSide(rules, addr, p.Flip(), s));
  }

  lemma {:induction false} RunIsOk(rules: Rules, addr: SockAddr, single: Option<SockAddr>, events: seq<PairEvent>)
    ensures PairOk(rules.cache, RunPair(rules, addr, single, events))
  {
    hide PairOk, OnPair;
    if events == [] {
      AcceptedOk(rules.cache, single);
    } else {
      var before := events[..|events| - 1];
      RunIsOk(rules, addr, single, before);
      OnPairKeeps(rules, addr, RunPair(rules, addr, single, before), events[|events| - 1]);
    }
  }
}
