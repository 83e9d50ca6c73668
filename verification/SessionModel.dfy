/** One proxied connection: the record the event loop keeps for it, how each event changes it, and
    what every event keeps. */
module SessionModel {
  import opened Bytes
  import opened Oracles
  import opened HttpRewrite
  import opened Socks5Codec
  import opened Handshake
  import opened OffsetQueue

  /** Why a session ends. */
  datatype Why =
    | RemoteClosed | RemoteReadError | RemoteWriteError | ConnectFailed
    | ClientClosed | ClientReadError | ClientWriteError | BothClosed
    | UnsupportedProtocol | NoAuthMethod | Refused(reason: Reason)

  /** The reply to the client when the connection to its target is made, or fails. */
  function SuccessReply(protocol: Protocol, local: SockAddr): seq<Byte> {
    match protocol
    case Socks5 => EncodeReply(REP_SUCCEEDED, local)
    case HttpTunnel => ESTABLISHED
    case _ => []
  }

  function FailureReply(protocol: Protocol): seq<Byte> {
    match protocol
    case Socks5 => EncodeReply(REP_REFUSED, UNSPECIFIED)
    case Unknown => []
    case _ => BAD_GATEWAY
  }

  // ---------------------------------------------------------------- what always holds

  /** A session as the handshake sees it: one that has dialled stands at Connecting. */
  ghost function StandOf(phase: Phase, protocol: Protocol, target: Option<SockAddr>, display: Option<seq<Byte>>,
                         remote: bool,
                         closing: bool, clientIn: seq<Byte>, replied: seq<Byte>, upstream: seq<Byte>, doomed: bool): Hs
  {
    Hs(if remote then Connecting else phase, protocol, target, display, clientIn, replied, upstream,
       if remote then false else closing, doomed, remote)
  }

  /** Upstream bookkeeping: up counts the bytes sent and queued, nothing is sent before Relay, and
      nothing is left in the client's buffer there. */
  ghost predicate UpstreamOk(phase: Phase, remote: bool, closing: bool, clientIn: seq<Byte>, c2r: Queue, up: nat,
                             sent: seq<Byte>)
  {
    && (phase == Connecting || phase == Relay ==> remote)
    && (remote ==> phase == Connecting || phase == Relay || phase == Closing)
    && (phase == Closing <==> closing)
    && (phase == Relay ==> clientIn == [])
    && (phase != Relay ==> sent == [])
    && up == |sent| + |Pending(c2r)|
    && QueueOk(c2r)
  }

  /** What the client was sent, then what is queued for it, is the handshake's replies, what came from
      the remote while connecting, the verdict on the connection, and what came from it since. */
  ghost predicate DownstreamOk(phase: Phase, remote: bool, protocol: Protocol, r2c: Queue, down: nat, sent: seq<Byte>,
                               replied: seq<Byte>, early: seq<Byte>, verdict: seq<Byte>, late: seq<Byte>,
                               local: SockAddr)
  {
    && sent + Pending(r2c) == replied + early + verdict + late
    && down == |early| + |late|
    && QueueOk(r2c)
    && (!remote ==> early == [])
    && (!remote || phase == Connecting ==> verdict == [] && late == [])
    && (phase == Relay ==> verdict == SuccessReply(protocol, local))
    && (remote && phase == Closing ==> verdict == FailureReply(protocol))
  }

  /** A write half is shut only after the other side's end of stream. */
  ghost predicate HalfCloseOk(remote: bool, clientEof: bool, remoteEof: bool, clientShut: bool, remoteShut: bool) {
    && (remoteShut ==> clientEof && remote)
    && (clientShut ==> remoteEof)
    && (remoteEof ==> remote)
  }

  /** The session ends because a stream has. */
  predicate ByEnd(why: Option<Why>) {
    why == Some(RemoteClosed) || why == Some(ClientClosed) || why == Some(BothClosed)
  }

  /** A session that is closing, or whose remote has ended, has something to flush or is listed for
      closing; and one is listed for the end of a stream only after the end of the remote's. */
  ghost predicate ClosesOk(phase: Phase, r2c: Queue, remoteEof: bool, why: Option<Why>, doomed: bool, queued: bool) {
    && (phase == Closing ==> r2c != [] || queued)
    && (remoteEof ==> r2c != [] || queued)
    && (doomed ==> queued)
    && (ByEnd(why) ==> remoteEof && queued)
  }

  // ---------------------------------------------------------------- the moves, on values

  /** Bytes that join both a queue and the history it answers to. */
  lemma BothGrow(sent: seq<Byte>, pending: seq<Byte>, r: seq<Byte>, e: seq<Byte>, v: seq<Byte>, l: seq<Byte>,
                 b: seq<Byte>)
    requires sent + pending == r + e + v + l
    ensures sent + (pending + b) == r + e + v + (l + b)
    ensures l == [] ==> sent + (pending + b) == r + e + (v + b) + l
    ensures v == [] && l == [] ==> sent + (pending + b) == r + (e + b) + v + l
    ensures e == [] && v == [] && l == [] ==> sent + (pending + b) == (r + b) + e + v + l
  {
    assert sent + (pending + b) == (sent + pending) + b;
    assert (r + e + v + l) + b == r + e + v + (l + b);
  }

  lemma RemoteDataQueued(phase: Phase, remote: bool, protocol: Protocol, r2c: Queue, down: nat, sent: seq<Byte>,
                         replied: seq<Byte>,
                         early: seq<Byte>, verdict: seq<Byte>, late: seq<Byte>, local: SockAddr, b: seq<Byte>)
    requires DownstreamOk(phase, remote, protocol, r2c, down, sent, replied, early, verdict, late, local)
    requires remote && b != []
    ensures var c := phase == Connecting;
            && DownstreamOk(phase, remote, protocol, r2c + [Chunk(b, 0)], down + |b|, sent, replied,
                            if c then early + b else early, verdict, if c then late else late + b, local)
            && (c ==> late == [])
  {
    PendingPush(r2c, b);
    BothGrow(sent, Pending(r2c), replied, early, verdict, late, b);
  }

  /** The verdict on the connection is queued as the phase leaves Connecting. */
  lemma VerdictQueued(phase: Phase, protocol: Protocol, r2c: Queue, down: nat, sent: seq<Byte>, replied: seq<Byte>,
                      early: seq<Byte>, verdict: seq<Byte>, late: seq<Byte>, local: SockAddr, next: Phase,
                      here: SockAddr, b: seq<Byte>)
    requires DownstreamOk(phase, true, protocol, r2c, down, sent, replied, early, verdict, late, local)
    requires phase == Connecting
    requires (next == Relay && b == SuccessReply(protocol, here)) || (next == Closing && b == FailureReply(protocol))
    ensures var q := if b == [] then r2c else r2c + [Chunk(b, 0)];
            DownstreamOk(next, true, protocol, q, down, sent, replied, early, b, late, here)
  {
    PendingPush(r2c, b);
    BothGrow(sent, Pending(r2c), replied, early, verdict, late, b);
    assert verdict + b == b;
  }

  lemma ReplyQueued(phase: Phase, protocol: Protocol, r2c: Queue, down: nat, sent: seq<Byte>, replied: seq<Byte>,
                    early: seq<Byte>, verdict: seq<Byte>, late: seq<Byte>, local: SockAddr, next: Phase, now: Protocol,
                    b: seq<Byte>)
    requires DownstreamOk(phase, false, protocol, r2c, down, sent, replied, early, verdict, late, local)
    requires next != Relay && b != []
    ensures DownstreamOk(next, false, now, r2c + [Chunk(b, 0)], down, sent, replied + b, early, verdict, late, local)
  {
    PendingPush(r2c, b);
    BothGrow(sent, Pending(r2c), replied, early, verdict, late, b);
  }

  lemma ClientFlushed(phase: Phase, remote: bool, protocol: Protocol, r2c: Queue, down: nat, sent: seq<Byte>,
                      replied: seq<Byte>,
                      early: seq<Byte>, verdict: seq<Byte>, late: seq<Byte>, local: SockAddr, writes: seq<WriteOutcome>)
    requires DownstreamOk(phase, remote, protocol, r2c, down, sent, replied, early, verdict, late, local)
    ensures var f := Flush(r2c, writes);
            DownstreamOk(phase, remote, protocol, f.queue, down, sent + f.sent, replied, early, verdict, late, local)
  {
    var f := Flush(r2c, writes);
    FlushConserves(r2c, writes);
    assert (sent + f.sent) + Pending(f.queue) == sent + Pending(r2c);
  }

  lemma RemoteFlushed(phase: Phase, remote: bool, closing: bool, clientIn: seq<Byte>, c2r: Queue, up: nat,
                      sent: seq<Byte>,
                      writes: seq<WriteOutcome>)
    requires UpstreamOk(phase, remote, closing, clientIn, c2r, up, sent) && phase == Relay
    ensures var f := Flush(c2r, writes);
            && UpstreamOk(phase, remote, closing, clientIn, f.queue, up, sent + f.sent)
            && (sent + f.sent) + Pending(f.queue) == sent + Pending(c2r)
  {
    FlushConserves(c2r, writes);
    hide QueueOk, Pending, Flush;
    var f := Flush(c2r, writes);
    assert (sent + f.sent) + Pending(f.queue) == sent + Pending(c2r);
    assert |sent + f.sent| + |Pending(f.queue)| == |sent| + |Pending(c2r)|;
  }

  lemma UpstreamQueued(clientIn: seq<Byte>, c2r: Queue, up: nat, sent: seq<Byte>, phase: Phase, remote: bool,
                       closing: bool,
                       b: seq<Byte>)
    requires UpstreamOk(phase, remote, closing, clientIn, c2r, up, sent) && b != []
    ensures UpstreamOk(phase, remote, closing, clientIn, c2r + [Chunk(b, 0)], up + |b|, sent)
    ensures sent + Pending(c2r + [Chunk(b, 0)]) == sent + Pending(c2r) + b
  {
    PendingPush(c2r, b);
    assert sent + (Pending(c2r) + b) == sent + Pending(c2r) + b;
  }

  /** Moving the client's buffer to the queue changes only how the content is divided. */
  lemma MoveIn(env: Env, h: Hs, p: Hs)
    requires Fresh(env, h) && Same(h, p) && h.phase == Connecting
    ensures var m := h.(clientIn := [], upstream := h.upstream + h.clientIn);
            Fresh(env, m) && Same(m, p)
  {
  }

  /** Client bytes queued straight to the remote are more of the plan's content. */
  lemma QueuedIsMore(env: Env, h: Hs, p: Hs, b: seq<Byte>)
    requires Fresh(env, h) && Same(h, p) && h.phase == Connecting && h.clientIn == []
    ensures var m := h.(upstream := h.upstream + b);
            Fresh(env, m) && Same(m, More(p, b))
  {
    SameOnMore(h, p, b);
    assert h.upstream + b + [] == h.upstream + ([] + b);
  }

  lemma DialledProtocol(env: Env, h: Hs)
    requires Fresh(env, h) && h.dialled
    ensures h.protocol != Unknown && FailureReply(h.protocol) != [] && !h.doomed && h.phase == Connecting
  {
  }

  /** The record of a session. A remote socket exists exactly when there is a token for it. */
  datatype Session = Session(
    phase: Phase, protocol: Protocol, target: Option<SockAddr>, display: Option<seq<Byte>>,
    remoteToken: Option<nat>, closeReason: Option<Why>, closeAfterFlush: bool,
    clientIn: seq<Byte>, c2r: Queue, r2c: Queue, up: nat, down: nat,
    clientEof: bool, remoteEof: bool, clientWriteShutdown: bool, remoteWriteShutdown: bool,
    clientInterest: Interest, remoteInterest: Interest)
  {
    predicate Remote() { remoteToken.Some? }

    function WantedClient(): Interest { Interest(!clientEof || r2c == [], r2c != []) }

    function WantedRemote(): Interest {
      var write := phase == Connecting || c2r != [];
      Interest(!remoteEof || !write, write)
    }
  }

  const NEW_SESSION: Session := Session(
    DetectProtocol, Unknown, None, None, None, None, false, [], [], [], 0, 0, false, false, false, false,
    Interest(true, false), Interest(false, false))

  /** What has passed through a session: all that was read from the client; all that the remote and
      the client socket took; what the handshake queued for the client; what the outcome of the
      connection queued for it, and the local address of that connection; what was read from the
      remote while connecting, and since; whether the handshake gave up without a reply; whether the
      session is listed for closing. */
  datatype History = History(
    clientRead: seq<Byte>, remoteSent: seq<Byte>, clientSent: seq<Byte>, replied: seq<Byte>,
    verdict: seq<Byte>, local: SockAddr, early: seq<Byte>, late: seq<Byte>,
    doomed: bool, queued: bool)
  {
    function RemoteRead(): seq<Byte> { early + late }
  }

  /** Bytes read from the remote count as early while the connection is being made. */
  function Reading(h: History, phase: Phase, b: seq<Byte>): History {
    if phase == Connecting then h.(early := h.early + b) else h.(late := h.late + b)
  }

  lemma ReadGrows(h: History, phase: Phase, b: seq<Byte>)
    requires phase == Connecting ==> h.late == []
    ensures Reading(h, phase, b).RemoteRead() == h.RemoteRead() + b
  {
  }

  const NO_HISTORY: History := History([], [], [], [], [], UNSPECIFIED, [], [], false, false)

  datatype State = State(s: Session, h: History)

  const START: State := State(NEW_SESSION, NO_HISTORY)

  ghost function Stand(x: State): Hs {
    StandOf(x.s.phase, x.s.protocol, x.s.target, x.s.display, x.s.Remote(), x.s.closeAfterFlush, x.s.clientIn,
            x.h.replied,
            x.h.remoteSent + Pending(x.s.c2r), x.h.doomed)
  }

  ghost predicate Up(x: State) {
    UpstreamOk(x.s.phase, x.s.Remote(), x.s.closeAfterFlush, x.s.clientIn, x.s.c2r, x.s.up, x.h.remoteSent)
  }

  ghost predicate Down(x: State) {
    DownstreamOk(x.s.phase, x.s.Remote(), x.s.protocol, x.s.r2c, x.s.down, x.h.clientSent, x.h.replied, x.h.early,
                 x.h.verdict, x.h.late, x.h.local)
  }

  ghost predicate Halves(x: State) {
    HalfCloseOk(x.s.Remote(), x.s.clientEof, x.s.remoteEof, x.s.clientWriteShutdown, x.s.remoteWriteShutdown)
  }

  ghost predicate Ends(x: State) {
    ClosesOk(x.s.phase, x.s.r2c, x.s.remoteEof, x.s.closeReason, x.h.doomed, x.h.queued)
  }

  /** All bookkeeping is in order. */
  ghost predicate InOrder(env: Env, x: State) {
    Fresh(env, Stand(x)) && Up(x) && Down(x) && Halves(x) && Ends(x)
  }

  /** Moreover the handshake and the upstream content are those of the plan p. */
  ghost predicate Mid(env: Env, x: State, p: Hs) {
    InOrder(env, x) && Same(Stand(x), p)
  }

  ghost predicate Armed(s: Session) {
    s.clientInterest == s.WantedClient() && (s.Remote() ==> s.remoteInterest == s.WantedRemote())
  }

  /** What holds of a session between events. */
  ghost predicate Valid(env: Env, x: State) {
    Mid(env, x, Plan(env, x.h.clientRead)) && Armed(x.s)
  }

  lemma NewSessionIsValid(env: Env)
    ensures Valid(env, START)
  {
    hide SuccessReply, FailureReply;
    assert Stand(START) == INITIAL;
    assert More(INITIAL, []) == INITIAL;
  }

  function Blame(x: State, why: Why): State {
    State(x.s.(closeReason := Some(why)), x.h.(queued := true))
  }

  lemma BlameKeeps(env: Env, x: State, p: Hs, why: Why)
    requires Mid(env, x, p) && (ByEnd(Some(why)) ==> x.s.remoteEof)
    ensures Mid(env, Blame(x, why), p)
  {
    hide Fresh, Same, UpstreamOk, DownstreamOk, StandOf;
  }

  // ---------------------------------------------------------------- remote events

  /** One read of the remote socket. */
  function TakeRemote(x: State, outcome: ReadOutcome): State {
    match outcome
    case ReadBlock => x
    case ReadFail => Blame(x, RemoteReadError)
    case Data(b) =>
      State(x.s.(down := x.s.down + |b|, r2c := x.s.r2c + [Chunk(b, 0)]), Reading(x.h, x.s.phase, b))
    case Eof =>
      if x.s.r2c == [] then Blame(MarkRemoteEof(x), RemoteClosed) else MarkRemoteEof(x)
  }

  function MarkRemoteEof(x: State): State { x.(s := x.s.(remoteEof := true)) }

  lemma MarkRemoteEofKeeps(env: Env, x: State, p: Hs)
    requires Mid(env, x, p) && x.s.Remote() && x.s.r2c != []
    ensures Mid(env, MarkRemoteEof(x), p)
  {
    hide Fresh, Same, UpstreamOk, DownstreamOk, StandOf;
  }

  lemma RemoteClosedKeeps(env: Env, x: State, p: Hs)
    requires Mid(env, x, p) && x.s.Remote() && x.s.r2c == []
    ensures Mid(env, Blame(MarkRemoteEof(x), RemoteClosed), p)
  {
    hide Fresh, Same, UpstreamOk, DownstreamOk, StandOf;
  }

  lemma RemoteDataKeeps(env: Env, x: State, p: Hs, b: seq<Byte>)
    requires Mid(env, x, p) && x.s.Remote() && b != [] && !x.s.remoteEof
    ensures Mid(env, TakeRemote(x, Data(b)), p)
    ensures TakeRemote(x, Data(b)).h.RemoteRead() == x.h.RemoteRead() + b
  {
    hide Fresh, Same, UpstreamOk, DownstreamOk, StandOf, Pending;
    RemoteDataQueued(x.s.phase, x.s.Remote(), x.s.protocol, x.s.r2c, x.s.down, x.h.clientSent, x.h.replied, x.h.early,
                     x.h.verdict,
                     x.h.late, x.h.local, b);
    ReadGrows(x.h, x.s.phase, b);
  }

  lemma TakeRemoteKeeps(env: Env, x: State, p: Hs, outcome: ReadOutcome)
    requires Mid(env, x, p) && x.s.Remote() && Kernel(x.s.remoteEof, outcome) == outcome
    ensures Mid(env, TakeRemote(x, outcome), p)
  {
    hide Mid;
    match outcome
    case Eof =>
      if x.s.r2c == [] { RemoteClosedKeeps(env, x, p); } else { MarkRemoteEofKeeps(env, x, p); }
    case Data(b) => RemoteDataKeeps(env, x, p, b);
    case ReadBlock =>
    case ReadFail => BlameKeeps(env, x, p, RemoteReadError);
  }

  /** Reading the remote until it would block, ends or fails. */
  function ReadRemote(x: State, script: seq<ReadOutcome>): State
    decreases |script|
  {
    if script == [] then x else
      var outcome := Kernel(x.s.remoteEof, script[0]);
      if outcome.Data? then ReadRemote(TakeRemote(x, outcome), script[1..]) else TakeRemote(x, outcome)
  }

  lemma {:induction false} ReadRemoteKeeps(env: Env, x: State, p: Hs, script: seq<ReadOutcome>)
    requires Mid(env, x, p) && x.s.Remote()
    ensures Mid(env, ReadRemote(x, script), p)
    decreases |script|
  {
    hide Mid;
    if script != [] {
      var outcome := Kernel(x.s.remoteEof, script[0]);
      TakeRemoteKeeps(env, x, p, outcome);
      if outcome.Data? { ReadRemoteKeeps(env, TakeRemote(x, outcome), p, script[1..]); }
    }
  }

  /** Reading adds to the history exactly the bytes that were there. */
  lemma {:induction false} ReadRemoteReads(x: State, script: seq<ReadOutcome>)
    requires x.s.phase == Connecting ==> x.h.late == []
    ensures ReadRemote(x, script).h.RemoteRead() == x.h.RemoteRead() + DataOf(x.s.remoteEof, script)
    decreases |script|
  {
    if script != [] && Kernel(x.s.remoteEof, script[0]).Data? {
      var b := script[0].bytes;
      ReadGrows(x.h, x.s.phase, b);
      ReadRemoteReads(TakeRemote(x, script[0]), script[1..]);
      assert x.h.RemoteRead() + b + DataOf(x.s.remoteEof, script[1..]) ==
        x.h.RemoteRead() + (b + DataOf(x.s.remoteEof, script[1..]));
    }
  }

  /** It sees the end of stream exactly when it comes. */
  lemma {:induction false} ReadRemoteSeesEof(x: State, script: seq<ReadOutcome>)
    ensures ReadRemote(x, script).s.remoteEof == (x.s.remoteEof || EndOf(x.s.remoteEof, script).Eof?)
    decreases |script|
  {
    if script != [] && Kernel(x.s.remoteEof, script[0]).Data? {
      ReadRemoteSeesEof(TakeRemote(x, script[0]), script[1..]);
    }
  }

  /** All that a read of the remote may change: what is queued for the client and counted, the end of
      the stream and the reason it may give to close, and the history of bytes from the remote. */
  ghost predicate ReadsRemoteOnly(x: State, y: State) {
    && y.s == x.s.(down := y.s.down, r2c := y.s.r2c, remoteEof := y.s.remoteEof, closeReason := y.s.closeReason)
    && y.h == x.h.(early := y.h.early, late := y.h.late, queued := y.h.queued)
  }

  lemma TakeRemoteTouches(x: State, outcome: ReadOutcome)
    ensures ReadsRemoteOnly(x, TakeRemote(x, outcome))
  {
  }

  /** It leaves the handshake and the upstream side alone. */
  lemma {:induction false} ReadRemoteTouches(x: State, script: seq<ReadOutcome>)
    ensures ReadsRemoteOnly(x, ReadRemote(x, script))
    decreases |script|
  {
    hide TakeRemote, Kernel;
    if script != [] {
      var outcome := Kernel(x.s.remoteEof, script[0]);
      TakeRemoteTouches(x, outcome);
      if outcome.Data? { ReadRemoteTouches(TakeRemote(x, outcome), script[1..]); }
    }
  }

  // ---------------------------------------------------------------- the connection is made, or fails

  function FailConnect(x: State): State {
    var reply := FailureReply(x.s.protocol);
    State(x.s.(r2c := if reply == [] then x.s.r2c else x.s.r2c + [Chunk(reply, 0)],
               closeAfterFlush := true, closeReason := Some(ConnectFailed), phase := Closing),
          x.h.(verdict := reply))
  }

  lemma FailConnectKeeps(env: Env, x: State, p: Hs)
    requires Mid(env, x, p) && x.s.phase == Connecting
    ensures Mid(env, FailConnect(x), p)
  {
    assert x.s.Remote();
    DialledProtocol(env, Stand(x));
    VerdictQueued(x.s.phase, x.s.protocol, x.s.r2c, x.s.down, x.h.clientSent, x.h.replied, x.h.early, x.h.verdict,
                  x.h.late,
                  x.h.local, Closing, x.h.local, FailureReply(x.s.protocol));
    hide Fresh, Same, DownstreamOk, FailureReply, Pending;
  }

  function AnswerSuccess(x: State, here: SockAddr): State {
    var reply := SuccessReply(x.s.protocol, here);
    State(x.s.(r2c := if reply == [] then x.s.r2c else x.s.r2c + [Chunk(reply, 0)], phase := Relay),
          x.h.(verdict := reply, local := here))
  }

  /** What the client sent before the connection was made goes to the remote. */
  function PassOn(x: State): State {
    if x.s.clientIn == [] then x else
      x.(s := x.s.(clientIn := [], up := x.s.up + |x.s.clientIn|, c2r := x.s.c2r + [Chunk(x.s.clientIn, 0)]))
  }

  function FinishConnect(x: State, here: SockAddr): State { PassOn(AnswerSuccess(x, here)) }

  lemma AnswerSuccessKeeps(env: Env, x: State, p: Hs, here: SockAddr)
    requires Mid(env, x, p) && x.s.phase == Connecting
    ensures var y := AnswerSuccess(x, here);
            Down(y) && Halves(y) && Ends(y) && Stand(y) == Stand(x)
  {
    VerdictQueued(x.s.phase, x.s.protocol, x.s.r2c, x.s.down, x.h.clientSent, x.h.replied, x.h.early, x.h.verdict,
                  x.h.late,
                  x.h.local, Relay, here, SuccessReply(x.s.protocol, here));
    hide Fresh, Same, DownstreamOk, SuccessReply, Pending;
  }

  lemma PassOnKeeps(env: Env, x: State, p: Hs, here: SockAddr)
    requires Mid(env, x, p) && x.s.phase == Connecting
    ensures var y := FinishConnect(x, here);
            Up(y) && Fresh(env, Stand(y)) && Same(Stand(y), p)
  {
    MoveIn(env, Stand(x), p);
    if x.s.clientIn != [] {
      UpstreamMoved(x.s.c2r, x.s.up, x.s.clientIn);
      assert x.h.remoteSent == [] && [] + Pending(x.s.c2r) == Pending(x.s.c2r);
      assert [] + (Pending(x.s.c2r) + x.s.clientIn) == Pending(x.s.c2r) + x.s.clientIn;
    } else {
      assert x.h.remoteSent + Pending(x.s.c2r) + [] == x.h.remoteSent + Pending(x.s.c2r);
    }
    hide Fresh, Same, Pending, SuccessReply;
  }

  lemma UpstreamMoved(c2r: Queue, up: nat, b: seq<Byte>)
    requires QueueOk(c2r) && up == |Pending(c2r)| && b != []
    ensures var q := c2r + [Chunk(b, 0)];
            QueueOk(q) && Pending(q) == Pending(c2r) + b && up + |b| == |Pending(q)|
  {
    PendingPush(c2r, b);
  }

  lemma FinishConnectKeeps(env: Env, x: State, p: Hs, here: SockAddr)
    requires Mid(env, x, p) && x.s.phase == Connecting
    ensures Mid(env, FinishConnect(x, here), p)
  {
    AnswerSuccessKeeps(env, x, p, here);
    PassOnKeeps(env, x, p, here);
    PassOnDown(AnswerSuccess(x, here));
    hide Fresh, Same, UpstreamOk, DownstreamOk, StandOf, SuccessReply, Up, Down, Halves, Ends;
  }

  lemma PassOnDown(x: State)
    requires Down(x) && Halves(x) && Ends(x)
    ensures Down(PassOn(x)) && Halves(PassOn(x)) && Ends(PassOn(x))
  {
    hide DownstreamOk;
  }

  // ---------------------------------------------------------------- writing to the remote

  function FlushRemote(x: State, writes: seq<WriteOutcome>): State {
    if x.s.c2r == [] || x.s.phase != Relay then x else
      var f := Flush(x.s.c2r, writes);
      var y := State(x.s.(c2r := f.queue), x.h.(remoteSent := x.h.remoteSent + f.sent));
      if f.ok then y else Blame(y, RemoteWriteError)
  }

  lemma FlushRemoteKeeps(env: Env, x: State, p: Hs, writes: seq<WriteOutcome>)
    requires Mid(env, x, p)
    ensures Mid(env, FlushRemote(x, writes), p)
  {
    if x.s.c2r != [] && x.s.phase == Relay {
      RemoteFlushed(x.s.phase, x.s.Remote(), x.s.closeAfterFlush, x.s.clientIn, x.s.c2r, x.s.up, x.h.remoteSent,
                    writes);
      var f := Flush(x.s.c2r, writes);
      var y := State(x.s.(c2r := f.queue), x.h.(remoteSent := x.h.remoteSent + f.sent));
      assert Mid(env, y, p) by { hide Fresh, Same, UpstreamOk, DownstreamOk, Flush, Pending; }
      BlameKeeps(env, y, p, RemoteWriteError);
      hide Mid, Flush;
    }
  }

  /** After the client's end of stream, an idle remote is told that no more will come. */
  function ShutRemote(x: State): State {
    if x.s.clientEof && x.s.c2r == [] && !x.s.remoteWriteShutdown && x.s.Remote()
    then x.(s := x.s.(remoteWriteShutdown := true))
    else x
  }

  lemma ShutRemoteKeeps(env: Env, x: State, p: Hs)
    requires Mid(env, x, p)
    ensures Mid(env, ShutRemote(x), p)
  {
    hide Fresh, Same, UpstreamOk, DownstreamOk;
  }

  function Rearm(s: Session): Session {
    s.(clientInterest := s.WantedClient(), remoteInterest := if s.Remote() then s.WantedRemote() else s.remoteInterest)
  }

  lemma RearmKeeps(env: Env, x: State, p: Hs)
    requires Mid(env, x, p)
    ensures Mid(env, x.(s := Rearm(x.s)), p) && Armed(Rearm(x.s))
  {
    hide Fresh, Same, UpstreamOk, DownstreamOk;
  }

  datatype RemoteEvent = RemoteEvent(
    readable: bool, script: seq<ReadOutcome>, writable: bool, connectError: bool, here: SockAddr,
    writes: seq<WriteOutcome>)

  function Connect(x: State, connectError: bool, here: SockAddr): State {
    if x.s.phase != Connecting then x else if connectError then FailConnect(x) else FinishConnect(x, here)
  }

  /** An event on the remote socket: read until it would block, then finish the connection, write what
      is queued and shut, then ask for the right wake-ups. */
  function OnRemote(x: State, e: RemoteEvent): State {
    var a := if e.readable then ReadRemote(x, e.script) else x;
    var b := if e.writable then ShutRemote(FlushRemote(Connect(a, e.connectError, e.here), e.writes)) else a;
    b.(s := Rearm(b.s))
  }

  lemma ConnectKeeps(env: Env, x: State, p: Hs, connectError: bool, here: SockAddr)
    requires Mid(env, x, p)
    ensures Mid(env, Connect(x, connectError, here), p)
  {
    if x.s.phase == Connecting {
      FailConnectKeeps(env, x, p);
      FinishConnectKeeps(env, x, p, here);
    }
  }

  lemma OnRemoteMid(env: Env, x: State, p: Hs, e: RemoteEvent)
    requires Mid(env, x, p) && x.s.Remote()
    ensures Mid(env, OnRemote(x, e), p) && Armed(OnRemote(x, e).s)
  {
    hide Mid, Armed, ReadRemote, Connect, FlushRemote, ShutRemote, Rearm;
    var a := if e.readable then ReadRemote(x, e.script) else x;
    if e.readable { ReadRemoteKeeps(env, x, p, e.script); }
    var b := a;
    if e.writable {
      ConnectKeeps(env, a, p, e.connectError, e.here);
      FlushRemoteKeeps(env, Connect(a, e.connectError, e.here), p, e.writes);
      b := ShutRemote(FlushRemote(Connect(a, e.connectError, e.here), e.writes));
      ShutRemoteKeeps(env, FlushRemote(Connect(a, e.connectError, e.here), e.writes), p);
    }
    RearmKeeps(env, b, p);
  }

  // ---------------------------------------------------------------- reading the client

  function TakeClient(x: State, outcome: ReadOutcome): State {
    match outcome
    case ReadBlock => x
    case ReadFail => Blame(x, ClientReadError)
    case Data(b) =>
      var h := x.h.(clientRead := x.h.clientRead + b);
      if x.s.phase == Relay
      then State(x.s.(up := x.s.up + |b|, c2r := x.s.c2r + [Chunk(b, 0)]), h)
      else State(x.s.(clientIn := x.s.clientIn + b), h)
    case Eof =>
      var y := ShutRemote(x.(s := x.s.(clientEof := true)));
      if x.s.remoteEof && x.s.r2c == [] then Blame(y, ClientClosed) else y
  }

  lemma ClientEofKeeps(env: Env, x: State, p: Hs)
    requires Mid(env, x, p)
    ensures Mid(env, TakeClient(x, Eof), p)
  {
    var y := x.(s := x.s.(clientEof := true));
    assert Mid(env, y, p) by { hide Fresh, Same, UpstreamOk, DownstreamOk, Pending; }
    assert ShutRemote(y).s.remoteEof == x.s.remoteEof;
    hide Mid, ShutRemote;
    ShutRemoteKeeps(env, y, p);
    if x.s.remoteEof { BlameKeeps(env, ShutRemote(y), p, ClientClosed); }
  }

  lemma RelayDataKeeps(env: Env, x: State, p: Hs, b: seq<Byte>)
    requires Mid(env, x, p) && b != [] && !x.s.clientEof && x.s.phase == Relay
    ensures Mid(env, TakeClient(x, Data(b)), More(p, b))
  {
    UpstreamQueued(x.s.clientIn, x.s.c2r, x.s.up, x.h.remoteSent, x.s.phase, x.s.Remote(), x.s.closeAfterFlush, b);
    assert x.s.Remote() && x.s.clientIn == [];
    QueuedIsMore(env, Stand(x), p, b);
    hide Fresh, Same, UpstreamOk, DownstreamOk, Pending, More;
  }

  lemma EarlyDataKeeps(env: Env, x: State, p: Hs, b: seq<Byte>)
    requires Mid(env, x, p) && b != [] && !x.s.clientEof && x.s.phase != Relay
    ensures Mid(env, TakeClient(x, Data(b)), More(p, b))
  {
    var y := TakeClient(x, Data(b));
    assert Stand(y) == More(Stand(x), b) by { hide Pending; }
    MoreKeepsFresh(env, Stand(x), b);
    SameOnMore(Stand(x), p, b);
    hide Fresh, Same, DownstreamOk, Pending, More, StandOf;
  }

  function DataIn(outcome: ReadOutcome): seq<Byte> { if outcome.Data? then outcome.bytes else [] }

  lemma TakeClientKeeps(env: Env, x: State, p: Hs, outcome: ReadOutcome)
    requires Mid(env, x, p) && Kernel(x.s.clientEof, outcome) == outcome
    ensures Mid(env, TakeClient(x, outcome), More(p, DataIn(outcome)))
    ensures TakeClient(x, outcome).h.clientRead == x.h.clientRead + DataIn(outcome)
  {
    hide Mid;
    assert More(p, []) == p;
    match outcome
    case Eof => ClientEofKeeps(env, x, p);
    case Data(b) => if x.s.phase == Relay { RelayDataKeeps(env, x, p, b); } else { EarlyDataKeeps(env, x, p, b); }
    case ReadBlock =>
    case ReadFail => BlameKeeps(env, x, p, ClientReadError);
  }

  /** Reading the client until it would block, ends or fails. */
  function ReadClient(x: State, script: seq<ReadOutcome>): State
    decreases |script|
  {
    if script == [] then x else
      var outcome := Kernel(x.s.clientEof, script[0]);
      if outcome.Data? then ReadClient(TakeClient(x, outcome), script[1..]) else TakeClient(x, outcome)
  }

  lemma MoreTwice(p: Hs, a: seq<Byte>, b: seq<Byte>)
    ensures More(More(p, a), b) == More(p, a + b)
    ensures More(p, []) == p
  {
  }

  lemma {:induction false} ReadClientReads(x: State, script: seq<ReadOutcome>)
    ensures ReadClient(x, script).h.clientRead == x.h.clientRead + DataOf(x.s.clientEof, script)
    decreases |script|
  {
    if script != [] && Kernel(x.s.clientEof, script[0]).Data? {
      var b, rest := script[0].bytes, DataOf(x.s.clientEof, script[1..]);
      ReadClientReads(TakeClient(x, script[0]), script[1..]);
      assert x.h.clientRead + b + rest == x.h.clientRead + (b + rest);
    }
  }

  lemma DataIsNotTheEnd(x: State, b: seq<Byte>)
    ensures TakeClient(x, Data(b)).s.clientEof == x.s.clientEof
  {
  }

  lemma {:induction false} ReadClientKeeps(env: Env, x: State, p: Hs, script: seq<ReadOutcome>)
    requires Mid(env, x, p)
    ensures Mid(env, ReadClient(x, script), More(p, DataOf(x.s.clientEof, script)))
    decreases |script|
  {
    MoreTwice(p, [], []);
    hide Mid, TakeClient, More;
    if script != [] {
      var outcome := Kernel(x.s.clientEof, script[0]);
      TakeClientKeeps(env, x, p, outcome);
      if outcome.Data? {
        DataIsNotTheEnd(x, outcome.bytes);
        ReadClientKeeps(env, TakeClient(x, outcome), More(p, outcome.bytes), script[1..]);
        MoreTwice(p, outcome.bytes, DataOf(x.s.clientEof, script[1..]));
      }
    }
  }

  // ---------------------------------------------------------------- writing to the client

  function FlushClient(x: State, writes: seq<WriteOutcome>): State {
    var f := Flush(x.s.r2c, writes);
    State(x.s.(r2c := f.queue, closeReason := if f.ok then x.s.closeReason else Some(ClientWriteError)),
          x.h.(clientSent := x.h.clientSent + f.sent, queued := x.h.queued || !f.ok))
  }

  /** After a flush: shut the client's write half behind the remote's end of stream, and list the
      session for closing once it has nothing more to say. */
  function Settle(x: State): State {
    if x.s.r2c != [] then x else
      var shut := x.s.(clientWriteShutdown := x.s.clientWriteShutdown || x.s.remoteEof,
                       closeReason := if x.s.remoteEof then Some(RemoteClosed) else x.s.closeReason);
      State(shut, x.h.(queued := x.h.queued || x.s.closeAfterFlush || x.s.remoteEof))
  }

  function WriteClient(x: State, writes: seq<WriteOutcome>): State { Settle(FlushClient(x, writes)) }

  lemma FlushClientKeeps(env: Env, x: State, p: Hs, writes: seq<WriteOutcome>)
    requires Mid(env, x, p)
    ensures var y := FlushClient(x, writes);
            && Fresh(env, Stand(y)) && Same(Stand(y), p) && Up(y) && Down(y) && Halves(y)
            && (ByEnd(y.s.closeReason) ==> y.s.remoteEof && y.h.queued)
            && (y.h.doomed ==> y.h.queued)
  {
    ClientFlushed(x.s.phase, x.s.Remote(), x.s.protocol, x.s.r2c, x.s.down, x.h.clientSent, x.h.replied, x.h.early,
                  x.h.verdict,
                  x.h.late, x.h.local, writes);
    hide Fresh, Same, UpstreamOk, DownstreamOk, Pending;
  }

  lemma WriteClientKeeps(env: Env, x: State, p: Hs, writes: seq<WriteOutcome>)
    requires Mid(env, x, p)
    ensures Mid(env, WriteClient(x, writes), p)
  {
    FlushClientKeeps(env, x, p, writes);
    assert x.s.phase == Closing <==> x.s.closeAfterFlush;
    hide Fresh, Same, UpstreamOk, DownstreamOk, Flush, Pending;
    var y := FlushClient(x, writes);
    SettleKeeps(env, y, p);
  }

  lemma SettleKeeps(env: Env, y: State, p: Hs)
    requires Fresh(env, Stand(y)) && Same(Stand(y), p) && Up(y) && Down(y) && Halves(y)
    requires ByEnd(y.s.closeReason) ==> y.s.remoteEof && y.h.queued
    requires y.h.doomed ==> y.h.queued
    ensures Mid(env, Settle(y), p)
  {
    assert y.s.phase == Closing <==> y.s.closeAfterFlush;
    hide Fresh, Same, UpstreamOk, DownstreamOk, StandOf, Pending;
    if y.s.r2c == [] {
      assert Halves(Settle(y));
      assert Ends(Settle(y));
    }
  }

  // ---------------------------------------------------------------- the handshake on the session

  function QueueReply(x: State, reply: seq<Byte>, why: Why): State {
    State(x.s.(r2c := x.s.r2c + [Chunk(reply, 0)], closeAfterFlush := true, phase := Closing, closeReason := Some(why)),
          x.h.(replied := x.h.replied + reply))
  }

  /** Start the connection to a target under the given token, or refuse. */
  function StartDial(env: Env, x: State, a: SockAddr, failure: seq<Byte>, token: nat): State {
    if env.connect(a)
    then x.(s := x.s.(remoteToken := Some(token), remoteInterest := Interest(true, true), phase := Connecting))
    else QueueReply(x, failure, ConnectFailed)
  }

  /** A parsed request leaves the buffer, and the bytes it has for the remote are queued. */
  function Taken(x: State, clientIn: seq<Byte>, target: SockAddr, display: seq<Byte>, protocol: Protocol,
                 b: seq<Byte>): State {
    x.(s := x.s.(clientIn := clientIn, target := Some(target), display := Some(display), protocol := protocol,
                 up := x.s.up + |b|, c2r := if b == [] then x.s.c2r else x.s.c2r + [Chunk(b, 0)]))
  }

  function ShakeHttp(env: Env, x: State, parse: Parse<HttpRequest>, token: nat): (y: State)
    ensures y.s.phase == x.s.phase || y.s.phase == Connecting || y.s.phase == Closing
  {
    match parse
    case Incomplete => x
    case Malformed(_) => Blame(x.(h := x.h.(doomed := true)), UnsupportedProtocol)
    case Done(r) =>
      var rest := x.s.clientIn[Min(r.consumed, |x.s.clientIn|)..];
      var left := if r.upstream != [] && r.protocol == HttpForward then [] else rest;
      StartDial(env, Taken(x, left, r.target, r.display, r.protocol, r.upstream), r.target, BAD_GATEWAY, token)
  }

  function ShakeDetect(env: Env, x: State, parse: Parse<HttpRequest>, token: nat): (y: State)
    ensures y.s.phase == x.s.phase || y.s.phase == Greeting || y.s.phase == Connecting || y.s.phase == Closing
  {
    if x.s.clientIn == [] then x
    else if x.s.clientIn[0] == VERSION then x.(s := x.s.(protocol := Socks5, phase := Greeting))
    else ShakeHttp(env, x, parse, token)
  }

  function ShakeGreeting(x: State): State {
    if |x.s.clientIn| < 2 then x else
      var n := x.s.clientIn[1] as int;
      if |x.s.clientIn| < 2 + n then x else
        var rest := x.(s := x.s.(clientIn := x.s.clientIn[2 + n..]));
        if NO_AUTH in x.s.clientIn[2..2 + n]
        then State(rest.s.(r2c := x.s.r2c + [Chunk(GREETING_OK, 0)], phase := Request),
                   x.h.(replied := x.h.replied + GREETING_OK))
        else QueueReply(rest, GREETING_REFUSED, NoAuthMethod)
  }

  function ShakeRequest(env: Env, x: State, parse: Parse<TargetRequest>, token: nat): (y: State)
    ensures y.s.phase == x.s.phase || y.s.phase == Connecting || y.s.phase == Closing
  {
    match parse
    case Incomplete => x
    case Malformed(reason) => QueueReply(x, EncodeReply(RefusalCode(reason), UNSPECIFIED), Refused(reason))
    case Done(r) =>
      var rest := x.s.clientIn[Min(r.consumed, |x.s.clientIn|)..];
      StartDial(env, Taken(x, rest, r.target, r.display, Socks5, []), r.target, EncodeReply(REP_REFUSED, UNSPECIFIED),
                token)
  }

  /** One turn of the state loop. */
  function ShakeStep(env: Env, x: State, token: nat): (y: State)
    ensures Rank(x.s.phase) <= Rank(y.s.phase)
  {
    match x.s.phase
    case DetectProtocol => ShakeDetect(env, x, ParseHttp(env, x.s.clientIn), token)
    case Greeting => ShakeGreeting(x)
    case Request => ShakeRequest(env, x, ParseTarget(env, x.s.clientIn), token)
    case _ => x
  }

  /** The whole state loop. */
  function Shake(env: Env, x: State, token: nat): (y: State)
    ensures Rank(x.s.phase) <= Rank(y.s.phase)
    decreases 5 - Rank(x.s.phase)
  {
    var y := ShakeStep(env, x, token);
    if y.s.phase == x.s.phase then y else Shake(env, y, token)
  }

  /** Everything but the handshake's own freshness, for a session that has not dialled. */
  ghost predicate Undialled(x: State) {
    !x.s.Remote() && Up(x) && Down(x) && Halves(x) && Ends(x) && x.s.phase != Relay
  }

  ghost predicate Steady(x: State) { Up(x) && Down(x) && Halves(x) && Ends(x) }

  lemma QueueReplyKeeps(x: State, reply: seq<Byte>, why: Why)
    requires Undialled(x) && reply != [] && !ByEnd(x.s.closeReason)
    requires !ByEnd(Some(why)) && !x.h.doomed
    ensures Steady(QueueReply(x, reply, why))
    ensures Stand(QueueReply(x, reply, why)) ==
      Stand(x).(replies := x.h.replied + reply, closing := true, phase := Closing)
  {
    ReplyQueued(x.s.phase, x.s.protocol, x.s.r2c, x.s.down, x.h.clientSent, x.h.replied, x.h.early, x.h.verdict,
                x.h.late,
                x.h.local, Closing, x.s.protocol, reply);
    hide DownstreamOk, Pending;
  }

  lemma StartDialKeeps(env: Env, x: State, a: SockAddr, failure: seq<Byte>, token: nat)
    requires Undialled(x) && failure != [] && !ByEnd(x.s.closeReason)
    requires x.s.phase != Closing && !x.h.doomed
    ensures var y := StartDial(env, x, a, failure, token);
            Steady(y) && Stand(y) == Dial(env, Stand(x), a, failure)
  {
    if env.connect(a) {
      var y := StartDial(env, x, a, failure, token);
      assert Down(y) && Up(y);
      hide DownstreamOk, UpstreamOk, Pending;
      assert Halves(y) && Ends(y);
    } else {
      QueueReplyKeeps(x, failure, ConnectFailed);
    }
  }

  lemma TakenKeeps(x: State, clientIn: seq<Byte>, target: SockAddr, display: seq<Byte>, protocol: Protocol,
                   b: seq<Byte>)
    requires Undialled(x) && x.s.phase != Closing
    ensures var t := Taken(x, clientIn, target, display, protocol, b);
            && Undialled(t)
            && Stand(t) == Stand(x).(clientIn := clientIn, target := Some(target), display := Some(display),
                                     protocol := protocol,
                                     upstream := Stand(x).upstream + b)
  {
    if b == [] {
      assert Stand(x).upstream + b == Stand(x).upstream;
    } else {
      UpstreamQueued(x.s.clientIn, x.s.c2r, x.s.up, x.h.remoteSent, x.s.phase, x.s.Remote(), x.s.closeAfterFlush, b);
    }
    hide Pending;
  }

  lemma TakenIsStill(x: State, clientIn: seq<Byte>, target: SockAddr, display: seq<Byte>, protocol: Protocol,
                     b: seq<Byte>)
    ensures var t := Taken(x, clientIn, target, display, protocol, b);
            t.s.phase == x.s.phase && t.s.closeReason == x.s.closeReason && t.h == x.h
  {
  }

  lemma ShakeHttpStands(env: Env, x: State, parse: Parse<HttpRequest>, token: nat)
    requires Undialled(x) && x.s.phase == DetectProtocol && !ByEnd(x.s.closeReason)
    requires parse.Done? ==> !x.h.doomed
    ensures var y := ShakeHttp(env, x, parse, token);
            Steady(y) && Stand(y) == HttpStep(env, Stand(x), parse)
  {
    assert Stand(x).clientIn == x.s.clientIn;
    match parse
    case Incomplete =>
    case Malformed(_) =>
      hide DownstreamOk, UpstreamOk, Pending;
    case Done(r) =>
      var rest := x.s.clientIn[Min(r.consumed, |x.s.clientIn|)..];
      var left := if r.upstream != [] && r.protocol == HttpForward then [] else rest;
      TakenKeeps(x, left, r.target, r.display, r.protocol, r.upstream);
      TakenIsStill(x, left, r.target, r.display, r.protocol, r.upstream);
      assert BAD_GATEWAY != [];
      StartDialKeeps(env, Taken(x, left, r.target, r.display, r.protocol, r.upstream), r.target, BAD_GATEWAY, token);
      hide Undialled, Steady, StartDial, Dial, Taken, Stand;
  }

  lemma ShakeRequestStands(env: Env, x: State, parse: Parse<TargetRequest>, token: nat)
    requires Undialled(x) && x.s.phase == Request && !ByEnd(x.s.closeReason) && !x.h.doomed
    requires parse == ParseTarget(env, x.s.clientIn)
    ensures var y := ShakeRequest(env, x, parse, token);
            Steady(y) && Stand(y) == RequestStep(env, Stand(x))
  {
    hide ParseTarget;
    assert Stand(x).clientIn == x.s.clientIn && Stand(x).replies == x.h.replied;
    match parse
    case Incomplete =>
    case Malformed(reason) =>
      QueueReplyKeeps(x, EncodeReply(RefusalCode(reason), UNSPECIFIED), Refused(reason));
    case Done(r) =>
      var rest := x.s.clientIn[Min(r.consumed, |x.s.clientIn|)..];
      TakenKeeps(x, rest, r.target, r.display, Socks5, []);
      TakenIsStill(x, rest, r.target, r.display, Socks5, []);
      assert Stand(x).upstream + [] == Stand(x).upstream;
      StartDialKeeps(env, Taken(x, rest, r.target, r.display, Socks5, []), r.target,
                     EncodeReply(REP_REFUSED, UNSPECIFIED), token);
      hide Undialled, Steady, StartDial, Dial, Taken, Stand;
  }

  lemma GreetingTaken(x: State, rest: seq<Byte>)
    requires Undialled(x) && x.s.phase == Greeting && !x.h.doomed
    ensures var t := x.(s := x.s.(clientIn := rest));
            Undialled(t) && Stand(t) == Stand(x).(clientIn := rest) && t.s.closeReason == x.s.closeReason
  {
  }

  lemma GreetingAccepted(t: State)
    requires Undialled(t) && t.s.phase == Greeting && !t.h.doomed
    ensures var y := State(t.s.(r2c := t.s.r2c + [Chunk(GREETING_OK, 0)], phase := Request),
                           t.h.(replied := t.h.replied + GREETING_OK));
            Steady(y) && Stand(y) == Stand(t).(replies := t.h.replied + GREETING_OK, phase := Request)
  {
    ReplyQueued(t.s.phase, t.s.protocol, t.s.r2c, t.s.down, t.h.clientSent, t.h.replied, t.h.early, t.h.verdict,
                t.h.late,
                t.h.local, Request, t.s.protocol, GREETING_OK);
    hide DownstreamOk, Pending;
  }

  lemma ShakeGreetingStands(x: State)
    requires Undialled(x) && x.s.phase == Greeting && !ByEnd(x.s.closeReason) && !x.h.doomed
    ensures var y := ShakeGreeting(x);
            Steady(y) && Stand(y) == GreetingStep(Stand(x))
  {
    var c := x.s.clientIn;
    if |c| >= 2 && |c| >= 2 + c[1] as int {
      var n := c[1] as int;
      var t := x.(s := x.s.(clientIn := c[2 + n..]));
      GreetingTaken(x, c[2 + n..]);
      if NO_AUTH in c[2..2 + n] {
        GreetingAccepted(t);
      } else {
        QueueReplyKeeps(t, GREETING_REFUSED, NoAuthMethod);
      }
      hide Undialled, Steady;
    }
  }

  /** A turn of the loop on a session is a step of the handshake. */
  lemma ShakeStepStands(env: Env, x: State, token: nat)
    requires InOrder(env, x) && !x.s.Remote()
    ensures Stand(ShakeStep(env, x, token)) == Step(env, Stand(x)) && InOrder(env, ShakeStep(env, x, token))
  {
    StepKeepsFresh(env, Stand(x));
    assert Undialled(x) && !ByEnd(x.s.closeReason) by { hide Fresh, DownstreamOk; }
    assert Stand(x).phase == x.s.phase && Stand(x).clientIn == x.s.clientIn && Stand(x).doomed == x.h.doomed;
    assert x.h.doomed ==> x.s.phase == DetectProtocol && x.s.clientIn != [] && ParseHttp(env, x.s.clientIn).Malformed?;
    hide ParseHttp, ParseTarget, Fresh, Undialled, UpstreamOk, DownstreamOk, HalfCloseOk, ClosesOk, StandOf;
    match x.s.phase
    case DetectProtocol =>
      var parse := ParseHttp(env, x.s.clientIn);
      DetectStands(env, x, parse, token);
    case Greeting => ShakeGreetingStands(x);
    case Request => ShakeRequestStands(env, x, ParseTarget(env, x.s.clientIn), token);
    case _ =>
  }

  lemma DetectStands(env: Env, x: State, parse: Parse<HttpRequest>, token: nat)
    requires Undialled(x) && x.s.phase == DetectProtocol && !ByEnd(x.s.closeReason)
    requires parse.Done? ==> !x.h.doomed
    ensures var y := ShakeDetect(env, x, parse, token);
            Steady(y) && Stand(y) == DetectStep(env, Stand(x), parse)
  {
    if x.s.clientIn != [] && x.s.clientIn[0] != VERSION {
      ShakeHttpStands(env, x, parse, token);
    }
    hide ShakeHttp, HttpStep, Pending;
  }
}
