/** What one event does to a session, whatever its phase: the bytes it writes to each side, and when it
    lists the session for closing. */
module SessionEvents {
  import opened Bytes
  import opened Oracles
  import opened HostPort
  import opened HttpRewrite
  import opened Socks5Codec
  import opened Handshake
  import opened OffsetQueue
  import opened SessionModel
  import opened SessionRuns
  import opened SessionCorners
  import opened SessionLosses

  // ---------------------------------------------------------------- what is written

  lemma {:induction false} ReadClientKeepsQueue(x: State, script: seq<ReadOutcome>)
    ensures var y := ReadClient(x, script);
            y.s.r2c == x.s.r2c && y.h.clientSent == x.h.clientSent && y.s.closeAfterFlush == x.s.closeAfterFlush
    decreases |script|
  {
    hide Kernel;
    if script != [] && Kernel(x.s.clientEof, script[0]).Data? {
      ReadClientKeepsQueue(TakeClient(x, Kernel(x.s.clientEof, script[0])), script[1..]);
    }
  }

  lemma WriteClientSends(x: State, writes: seq<WriteOutcome>)
    ensures WriteClient(x, writes).h.clientSent == x.h.clientSent + Flush(x.s.r2c, writes).sent
  {
    hide Flush;
  }

  /** In every phase, an event on the client writes to it all that the socket takes of what was queued
      before the event, and nothing else. */
  lemma ClientEventWrites(env: Env, x: State, e: ClientEvent, token: nat)
    ensures OnClient(env, x, e, token).h.clientSent ==
            x.h.clientSent + if e.writable then Flush(x.s.r2c, e.writes).sent else []
  {
    hide ReadClient, WriteClient, Shake, Flush;
    var a := if e.readable then ReadClient(x, e.script) else x;
    ReadClientKeepsQueue(x, e.script);
    WriteClientSends(a, e.writes);
    ShakeHistory(env, if e.writable then WriteClient(a, e.writes) else a, token);
    assert x.h.clientSent + [] == x.h.clientSent;
  }

  /** So a client that takes something at every write, often enough, has then been sent all it was told. */
  lemma ClientEventDrains(env: Env, x: State, e: ClientEvent, token: nat)
    requires Valid(env, x) && e.writable && Taking(e.writes) && |e.writes| >= |Pending(x.s.r2c)|
    ensures OnClient(env, x, e, token).h.clientSent == Told(x)
  {
    ClientEventWrites(env, x, e, token);
    assert QueueOk(x.s.r2c);
    FlushDrains(x.s.r2c, e.writes);
    hide Valid, OnClient, Flush, Pending;
  }

  /** What the client sent before goes along once the connection is made. */
  function ToRemote(x: State): Queue {
    if x.s.clientIn == [] then x.s.c2r else x.s.c2r + [Chunk(x.s.clientIn, 0)]
  }

  lemma ConnectSends(a: State, connectError: bool, here: SockAddr)
    ensures Connect(a, connectError, here).h.remoteSent == a.h.remoteSent
  {
  }

  lemma FlushSends(c: State, writes: seq<WriteOutcome>)
    ensures ShutRemote(FlushRemote(c, writes)).h.remoteSent ==
            c.h.remoteSent + if c.s.phase == Relay then Flush(c.s.c2r, writes).sent else []
  {
    assert c.s.c2r == [] ==> Flush(c.s.c2r, writes) == Flushed([], [], true);
    assert c.h.remoteSent + [] == c.h.remoteSent;
    hide Flush;
  }

  /** An event on the remote writes to it all that the socket takes, once the connection is made; one on
      the client writes nothing to it. */
  lemma RemoteEventWrites(env: Env, x: State, r: RemoteEvent)
    requires Valid(env, x) && x.s.Remote()
    ensures var connected := x.s.phase == Relay || (x.s.phase == Connecting && !r.connectError);
            OnRemote(x, r).h.remoteSent ==
            x.h.remoteSent + if r.writable && connected then Flush(ToRemote(x), r.writes).sent else []
  {
    hide Valid, Connect, FlushRemote, ShutRemote, ReadRemote, Flush, WhyAfterReading;
    RemoteIsLate(env, x);
    AfterReadingTouches(x, r);
    var a := AfterReading(x, r);
    ConnectLeaves(a, r.connectError, r.here);
    ConnectSends(a, r.connectError, r.here);
    FlushSends(Connect(a, r.connectError, r.here), r.writes);
    assert x.h.remoteSent + [] == x.h.remoteSent;
  }

  lemma ConnectDecides(a: State, connectError: bool, here: SockAddr)
    ensures var c := Connect(a, connectError, here);
            && c.h.clientSent == a.h.clientSent && c.h.clientRead == a.h.clientRead
            && (a.s.phase != Connecting ==> c.h.verdict == a.h.verdict && c.h.local == a.h.local)
            && (a.s.phase == Connecting && connectError ==> c.h.verdict == FailureReply(a.s.protocol))
            && (a.s.phase == Connecting && !connectError ==>
                 c.h.verdict == SuccessReply(a.s.protocol, here) && c.h.local == here)
  {
    hide SuccessReply, FailureReply;
  }

  lemma FlushDecidesNothing(c: State, writes: seq<WriteOutcome>)
    ensures var y := ShutRemote(FlushRemote(c, writes));
            && y.s.phase == c.s.phase && y.h.clientSent == c.h.clientSent && y.h.clientRead == c.h.clientRead
            && y.h.verdict == c.h.verdict && y.h.local == c.h.local
  {
    hide Flush;
  }

  /** While connecting, the first event with which the remote may be written to decides the connection;
      nothing else does, and an event on the remote neither reads the client nor writes to it. */
  lemma RemoteEventDecides(env: Env, x: State, r: RemoteEvent)
    requires Valid(env, x) && x.s.Remote()
    ensures var y, decided := OnRemote(x, r), x.s.phase == Connecting && r.writable;
            && y.s.phase == (if !decided then x.s.phase else if r.connectError then Closing else Relay)
            && (!decided ==> y.h.verdict == x.h.verdict && y.h.local == x.h.local)
            && (decided && r.connectError ==> y.h.verdict == FailureReply(x.s.protocol))
            && (decided && !r.connectError ==>
                 y.h.verdict == SuccessReply(x.s.protocol, r.here) && y.h.local == r.here)
            && y.h.clientSent == x.h.clientSent && y.h.clientRead == x.h.clientRead
  {
    hide Valid, Connect, FlushRemote, ShutRemote, ReadRemote, WhyAfterReading, SuccessReply, FailureReply;
    RemoteIsLate(env, x);
    AfterReadingTouches(x, r);
    var a := AfterReading(x, r);
    ConnectLeaves(a, r.connectError, r.here);
    ConnectDecides(a, r.connectError, r.here);
    FlushDecidesNothing(Connect(a, r.connectError, r.here), r.writes);
  }

  lemma ClientEventSendsNothing(env: Env, x: State, e: ClientEvent, token: nat)
    ensures OnClient(env, x, e, token).h.remoteSent == x.h.remoteSent
  {
    hide ReadClient, WriteClient, Shake;
    var a := if e.readable then ReadClient(x, e.script) else x;
    ReadClientHistory(x, e.script);
    WriteClientHistory(a, e.writes);
    ShakeHistory(env, if e.writable then WriteClient(a, e.writes) else a, token);
  }

  lemma {:induction false} ShakeEnds(env: Env, x: State, token: nat)
    ensures var y := Shake(env, x, token);
            y.s.clientEof == x.s.clientEof && y.s.remoteEof == x.s.remoteEof
    decreases 5 - Rank(x.s.phase)
  {
    hide ShakeStep;
    StepsQuietly(env, x, token);
    var y := ShakeStep(env, x, token);
    if y.s.phase != x.s.phase { ShakeEnds(env, y, token); }
  }

  /** The client's end of stream is noted exactly when it is read. */
  lemma ClientEndIsSeen(env: Env, x: State, e: ClientEvent, token: nat)
    ensures var y := OnClient(env, x, e, token);
            && y.s.clientEof == (x.s.clientEof || (e.readable && EndOf(x.s.clientEof, e.script).Eof?))
            && y.s.remoteEof == x.s.remoteEof
  {
    hide ReadClient, WriteClient, Shake, EndOf;
    var a := if e.readable then ReadClient(x, e.script) else x;
    ReadClientWhy(x, e.script);
    WriteClientTouches(a, e.writes);
    ShakeEnds(env, if e.writable then WriteClient(a, e.writes) else a, token);
  }

  lemma ConnectEnds(a: State, connectError: bool, here: SockAddr)
    ensures var c := Connect(a, connectError, here);
            c.s.clientEof == a.s.clientEof && c.s.remoteEof == a.s.remoteEof
  {
    hide SuccessReply, FailureReply;
  }

  lemma FlushEnds(c: State, writes: seq<WriteOutcome>)
    ensures var y := ShutRemote(FlushRemote(c, writes));
            y.s.clientEof == c.s.clientEof && y.s.remoteEof == c.s.remoteEof
  {
    hide Flush;
  }

  /** So is the remote's. */
  lemma RemoteEndIsSeen(x: State, r: RemoteEvent)
    ensures var y := OnRemote(x, r);
            && y.s.remoteEof == (x.s.remoteEof || (r.readable && EndOf(x.s.remoteEof, r.script).Eof?))
            && y.s.clientEof == x.s.clientEof
  {
    hide ReadRemote, EndOf, Connect, FlushRemote, ShutRemote;
    ReadRemoteSeesEof(x, r.script);
    ReadRemoteTouches(x, r.script);
    var a := AfterReading(x, r);
    ConnectEnds(a, r.connectError, r.here);
    FlushEnds(Connect(a, r.connectError, r.here), r.writes);
  }

  // ---------------------------------------------------------------- when a session is listed for closing

  lemma {:induction false} ReadRemoteLists(x: State, script: seq<ReadOutcome>)
    ensures var end := EndOf(x.s.remoteEof, script);
            ReadRemote(x, script).h.queued <==>
              x.h.queued || end.ReadFail? || (end.Eof? && x.s.r2c == [] && DataOf(x.s.remoteEof, script) == [])
    decreases |script|
  {
    if script != [] && Kernel(x.s.remoteEof, script[0]).Data? {
      ReadRemoteLists(TakeRemote(x, script[0]), script[1..]);
    }
  }

  lemma {:induction false} ReadClientLists(x: State, script: seq<ReadOutcome>)
    ensures var end := EndOf(x.s.clientEof, script);
            ReadClient(x, script).h.queued <==>
              x.h.queued || end.ReadFail? || (end.Eof? && x.s.remoteEof && x.s.r2c == [])
    decreases |script|
  {
    if script != [] && Kernel(x.s.clientEof, script[0]).Data? {
      DataIsNotTheEnd(x, script[0].bytes);
      ReadClientLists(TakeClient(x, script[0]), script[1..]);
    }
  }

  lemma WriteClientLists(a: State, writes: seq<WriteOutcome>)
    ensures var f := Flush(a.s.r2c, writes);
            WriteClient(a, writes).h.queued <==>
              a.h.queued || !f.ok || (f.queue == [] && (a.s.closeAfterFlush || a.s.remoteEof))
  {
    hide Flush;
  }

  lemma StepLists(env: Env, x: State, token: nat)
    requires x.h.doomed ==> x.h.queued
    ensures var y := ShakeStep(env, x, token);
            (y.h.queued <==> x.h.queued || y.h.doomed) && (x.h.doomed ==> y.h.doomed)
  {
    hide ParseHttp, ParseTarget, EncodeReply;
  }

  lemma {:induction false} ShakeLists(env: Env, x: State, token: nat)
    requires x.h.doomed ==> x.h.queued
    ensures var y := Shake(env, x, token);
            (y.h.queued <==> x.h.queued || y.h.doomed) && (x.h.doomed ==> y.h.doomed)
    decreases 5 - Rank(x.s.phase)
  {
    hide ShakeStep;
    StepLists(env, x, token);
    var y := ShakeStep(env, x, token);
    if y.s.phase != x.s.phase { ShakeLists(env, y, token); }
  }

  /** The events that list a session for closing. On the remote: a read fails, or the stream ends with
      nothing queued and nothing read with it, or a write fails. On the client: a read fails, or the
      stream ends behind the remote's with nothing queued for it; a write fails, or leaves nothing to
      write to a session that is closing or whose remote has ended; or both sides are done; or what the
      client has sent is refused without a reply. */
  ghost predicate Lists(env: Env, x: State, e: Event) {
    match e
    case FromRemote(r) =>
      var end := if r.readable then EndOf(x.s.remoteEof, r.script) else ReadBlock;
      && x.s.Remote()
      && (|| end.ReadFail?
          || (end.Eof? && x.s.r2c == [] && RemoteData(x, r) == [])
          || (r.writable && (x.s.phase == Relay || (x.s.phase == Connecting && !r.connectError))
              && !Flush(ToRemote(x), r.writes).ok))
    case FromClient(c, _) =>
      var end := if c.readable then EndOf(x.s.clientEof, c.script) else ReadBlock;
      var f := Flush(x.s.r2c, c.writes);
      var left := if c.writable then f.queue else x.s.r2c;
      || end.ReadFail?
      || (end.Eof? && x.s.remoteEof && x.s.r2c == [])
      || (c.writable && (!f.ok || (left == [] && (x.s.closeAfterFlush || x.s.remoteEof))))
      || ((x.s.clientEof || end.Eof?) && x.s.remoteEof && left == [] && x.s.c2r == []
          && (x.s.phase == Relay ==> ClientData(x, c) == []))
      || Plan(env, x.h.clientRead + ClientData(x, c)).doomed
  }

  lemma ConnectLists(a: State, connectError: bool, here: SockAddr)
    ensures Connect(a, connectError, here).h.queued == a.h.queued
  {
  }

  lemma FlushLists(c: State, writes: seq<WriteOutcome>)
    ensures ShutRemote(FlushRemote(c, writes)).h.queued <==>
            c.h.queued || (c.s.phase == Relay && !Flush(c.s.c2r, writes).ok)
  {
    assert c.s.c2r == [] ==> Flush(c.s.c2r, writes) == Flushed([], [], true);
    hide Flush;
  }

  lemma RemoteLists(env: Env, x: State, r: RemoteEvent)
    requires Valid(env, x) && x.s.Remote()
    ensures OnRemote(x, r).h.queued <==> x.h.queued || Lists(env, x, FromRemote(r))
  {
    hide Valid, Connect, FlushRemote, ShutRemote, ReadRemote, Flush, WhyAfterReading;
    RemoteIsLate(env, x);
    AfterReadingTouches(x, r);
    ReadRemoteLists(x, r.script);
    var a := AfterReading(x, r);
    ConnectLeaves(a, r.connectError, r.here);
    ConnectLists(a, r.connectError, r.here);
    FlushLists(Connect(a, r.connectError, r.here), r.writes);
  }

  lemma DoomIsPlanned(env: Env, x: State)
    requires Valid(env, x)
    ensures x.h.doomed == Plan(env, x.h.clientRead).doomed && (x.h.doomed ==> x.h.queued)
    ensures x.s.remoteEof ==> x.s.Remote()
  {
    hide Plan, Fresh, UpstreamOk, DownstreamOk, Pending;
  }

  lemma BothLists(c: State)
    ensures var y := BothDone(c);
            && (y.h.queued <==> c.h.queued || (c.s.clientEof && c.s.remoteEof && c.s.r2c == [] && c.s.c2r == []))
            && y.h.doomed == c.h.doomed && y.s.remoteEof == c.s.remoteEof
  {
  }

  /** Reading and writing, before the handshake goes on. */
  lemma ClientLists(x: State, c: ClientEvent)
    requires x.h.doomed ==> x.h.queued
    ensures var a := if c.readable then ReadClient(x, c.script) else x;
            var b := if c.writable then WriteClient(a, c.writes) else a;
            var end := if c.readable then EndOf(x.s.clientEof, c.script) else ReadBlock;
            var f := Flush(x.s.r2c, c.writes);
            var left := if c.writable then f.queue else x.s.r2c;
            && (b.h.queued <==>
                 || x.h.queued || end.ReadFail? || (end.Eof? && x.s.remoteEof && x.s.r2c == [])
                 || (c.writable && (!f.ok || (left == [] && (x.s.closeAfterFlush || x.s.remoteEof)))))
            && b.h.doomed == x.h.doomed && b.s.r2c == left && b.s.remoteEof == x.s.remoteEof
            && b.s.clientEof == (x.s.clientEof || end.Eof?)
  {
    hide ReadClient, WriteClient, Flush, EndOf;
    var a := if c.readable then ReadClient(x, c.script) else x;
    ReadClientLists(x, c.script);
    ReadClientKeepsQueue(x, c.script);
    ReadClientWhy(x, c.script);
    ReadClientHistory(x, c.script);
    WriteClientLists(a, c.writes);
    WriteClientHistory(a, c.writes);
    WriteClientTouches(a, c.writes);
    WriteClientWhy(a, c.writes);
  }

  lemma ClientQueueLeft(env: Env, x: State, c: ClientEvent)
    requires Valid(env, x) && x.s.Remote()
    ensures var a := if c.readable then ReadClient(x, c.script) else x;
            var b := if c.writable then WriteClient(a, c.writes) else a;
            b.s.c2r == [] <==> x.s.c2r == [] && (x.s.phase == Relay ==> ClientData(x, c) == [])
  {
    hide ReadClient, WriteClient, DataOf, EndOf, Valid;
    ReadClientDoes(x, c.script);
    WriteClientTouches(if c.readable then ReadClient(x, c.script) else x, c.writes);
  }

  lemma ClientEventLists(env: Env, x: State, c: ClientEvent, token: nat)
    requires Valid(env, x)
    ensures OnClient(env, x, c, token).h.queued <==> x.h.queued || Lists(env, x, FromClient(c, token))
  {
    hide Valid, ReadClient, WriteClient, Shake, BothDone, Plan, Flush, EndOf, DataOf, ByEnd;
    var a := if c.readable then ReadClient(x, c.script) else x;
    var b := if c.writable then WriteClient(a, c.writes) else a;
    var y := OnClient(env, x, c, token);
    DoomIsPlanned(env, x);
    ClientLists(x, c);
    ShakeLists(env, b, token);
    BothLists(Shake(env, b, token));
    OnClientKeeps(env, x, c, token);
    DoomIsPlanned(env, y);
    if x.s.Remote() {
      ClientQueueLeft(env, x, c);
      RemoteIsLate(env, x);
      ReadClientKeepsPhase(x, c.script);
      WriteClientKeepsPhase(a, c.writes);
      LatePhaseRests(env, b, token);
    } else {
      ClientWithoutRemote(env, x, c, token);
    }
  }

  /** One event, on any session: it lists the session for closing exactly when it is one of these. */
  lemma ListedExactly(env: Env, x: State, e: Event)
    requires Valid(env, x)
    ensures OnEvent(env, x, e).h.queued <==> x.h.queued || Lists(env, x, e)
  {
    hide Valid, OnClient, OnRemote, Lists;
    match e
    case FromRemote(r) =>
      if x.s.Remote() { RemoteLists(env, x, r); } else { NoRemoteListsNone(env, x, r); }
    case FromClient(c, token) => ClientEventLists(env, x, c, token);
  }

  lemma NoRemoteListsNone(env: Env, x: State, r: RemoteEvent)
    requires !x.s.Remote()
    ensures !Lists(env, x, FromRemote(r))
  {
  }

  // ---------------------------------------------------------------- what the verdicts say

  const HTTP_1_1: seq<Byte> := Ascii("HTTP/1.1 ")
  const NO_CONTENT: seq<Byte> := Ascii("Content-Length: 0")

  /** The digits of the status of an HTTP response. */
  function Status(response: seq<Byte>): Option<Port> {
    if |response| > 12 && HTTP_1_1 <= response && response[12] == SPACE then ParsePort(response[9..12]) else None
  }

  lemma StatusReads(a: Byte, b: Byte, c: Byte, rest: seq<Byte>)
    requires IsDigit(a) && IsDigit(b) && IsDigit(c)
    ensures Status(HTTP_1_1 + [a, b, c, SPACE] + rest) ==
            Some((a as int - 48) * 100 + (b as int - 48) * 10 + (c as int - 48))
  {
    var r := HTTP_1_1 + [a, b, c, SPACE] + rest;
    assert |HTTP_1_1| == 9;
    hide Ascii, ParsePort;
    assert HTTP_1_1 <= r && r[12] == SPACE && r[9..12] == [a, b, c];
    ThreeDigits(a, b, c);
  }

  lemma ThreeDigits(a: Byte, b: Byte, c: Byte)
    requires IsDigit(a) && IsDigit(b) && IsDigit(c)
    ensures ParsePort([a, b, c]) == Some((a as int - 48) * 100 + (b as int - 48) * 10 + (c as int - 48))
  {
    var s := [a, b, c];
    assert s[..2] == [a, b] && [a, b][..1] == [a] && [a][..0] == [];
    assert DigitsValue([a]) == Some(a as int - 48);
    assert DigitsValue([a, b]) == Some((a as int - 48) * 10 + (b as int - 48));
  }

  /** Text without control characters. */
  lemma PrintableHasNoCrlf(line: seq<Byte>)
    requires forall i :: 0 <= i < |line| ==> line[i] >= 32
    ensures CrlfFree(line)
  {
  }

  lemma HeadOnly(line: seq<Byte>)
    requires CrlfFree(line) && line != []
    ensures HeaderEnd(line + BLANK) == Some(|line + BLANK|)
  {
    assert line + BLANK == line + CRLF + CRLF && CrlfHere(CRLF, 0);
    LineShiftsBlank(line, CRLF);
  }

  lemma EstablishedText()
    ensures var line := Ascii("HTTP/1.1 200 Connection Established");
            && line == HTTP_1_1 + [50, 48, 48, SPACE] + Ascii("Connection Established")
            && forall i :: 0 <= i < |line| ==> line[i] >= 32
  {
  }

  lemma TwoHundred()
    ensures Status(ESTABLISHED) == Some(200) && HeaderEnd(ESTABLISHED) == Some(|ESTABLISHED|)
  {
    hide Status, HeaderEnd, CrlfFree;
    EstablishedText();
    hide Ascii;
    var line := Ascii("HTTP/1.1 200 Connection Established");
    PrintableHasNoCrlf(line);
    HeadOnly(line);
    assert ESTABLISHED == HTTP_1_1 + [50, 48, 48, SPACE] + (Ascii("Connection Established") + BLANK);
    StatusReads(50, 48, 48, Ascii("Connection Established") + BLANK);
  }

  lemma BadGatewayText()
    ensures var line := Ascii("HTTP/1.1 502 Bad Gateway");
            && line == HTTP_1_1 + [53, 48, 50, SPACE] + Ascii("Bad Gateway")
            && forall i :: 0 <= i < |line| ==> line[i] >= 32
  {
  }

  lemma NoContentText()
    ensures NO_CONTENT != [] && forall i :: 0 <= i < |NO_CONTENT| ==> NO_CONTENT[i] >= 32
  {
  }

  /** A response of two lines. */
  lemma TwoLines(line: seq<Byte>, header: seq<Byte>)
    requires CrlfFree(line) && CrlfFree(header) && line != [] && header != []
    ensures var r := line + CRLF + header + BLANK;
            HeaderEnd(r) == Some(|r|) && SplitLines(r) == [line, header, [], []]
  {
    hide SplitLines, HeaderEnd;
    var r := line + CRLF + header + BLANK;
    FirstBlank([line, header], []);
    JoinHead([line, header], CRLF + []);
    JoinHead([header], CRLF + []);
    assert Join([]) == [];
    assert r == line + CRLF + (header + CRLF + CRLF);
    assert r == Join([line, header]) + (CRLF + []);
    SplitStep(line, header + CRLF + CRLF);
    SplitStep(header, CRLF);
    CrlfSplits();
  }

  lemma BadGateway()
    ensures Status(BAD_GATEWAY) == Some(502) && HeaderEnd(BAD_GATEWAY) == Some(|BAD_GATEWAY|)
    ensures SplitLines(BAD_GATEWAY)[1..] == [NO_CONTENT, [], []]
  {
    hide Status, HeaderEnd, CrlfFree, SplitLines;
    BadGatewayText();
    NoContentText();
    hide Ascii;
    var line := Ascii("HTTP/1.1 502 Bad Gateway");
    PrintableHasNoCrlf(line);
    PrintableHasNoCrlf(NO_CONTENT);
    TwoLines(line, NO_CONTENT);
    assert BAD_GATEWAY == line + CRLF + NO_CONTENT + BLANK;
    assert BAD_GATEWAY == HTTP_1_1 + [53, 48, 50, SPACE] + (Ascii("Bad Gateway") + CRLF + NO_CONTENT + BLANK);
    StatusReads(53, 48, 50, Ascii("Bad Gateway") + CRLF + NO_CONTENT + BLANK);
  }

  /** What a client is told of its connection: a SOCKS5 client the success or refusal of RFC 1928 section
      6, with the local address or none; a tunnel a response 200 or 502 that is a head alone; a forwarded
      request nothing, or 502. */
  lemma VerdictsMean(here: SockAddr)
    ensures SuccessReply(Socks5, here) == [5, 0, 0] + AddressBytes(here)
    ensures FailureReply(Socks5) == [5, 5, 0, 1, 0, 0, 0, 0, 0, 0]
    ensures var ok := SuccessReply(HttpTunnel, here);
            Status(ok) == Some(200) && HeaderEnd(ok) == Some(|ok|)
    ensures SuccessReply(HttpForward, here) == [] && FailureReply(HttpTunnel) == FailureReply(HttpForward)
    ensures var bad := FailureReply(HttpForward);
            Status(bad) == Some(502) && HeaderEnd(bad) == Some(|bad|) && SplitLines(bad)[1..] == [NO_CONTENT, [], []]
  {
    hide Status, HeaderEnd, SplitLines, Ascii;
    TwoHundred();
    BadGateway();
  }
}
