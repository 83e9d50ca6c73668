/** Progress of a proxied connection, and the corner cases in which early bytes or an early end of
    stream get ahead of the connection being made. */
module SessionCorners {
  import opened Bytes
  import opened Oracles
  import opened HttpRewrite
  import opened Socks5Codec
  import opened Handshake
  import opened OffsetQueue
  import opened SessionModel
  import opened SessionRuns

  // ---------------------------------------------------------------- phases only move forward

  lemma {:induction false} ReadClientKeepsPhase(x: State, script: seq<ReadOutcome>)
    ensures var y := ReadClient(x, script);
            y.s.phase == x.s.phase && y.s.remoteToken == x.s.remoteToken
    decreases |script|
  {
    hide Kernel;
    if script != [] && Kernel(x.s.clientEof, script[0]).Data? {
      ReadClientKeepsPhase(TakeClient(x, Kernel(x.s.clientEof, script[0])), script[1..]);
    }
  }

  lemma WriteClientKeepsPhase(x: State, writes: seq<WriteOutcome>)
    ensures WriteClient(x, writes).s.phase == x.s.phase && WriteClient(x, writes).s.remoteToken == x.s.remoteToken
  {
  }

  lemma ConnectPhases(x: State, connectError: bool, here: SockAddr)
    ensures Connect(x, connectError, here).s.phase ==
            if x.s.phase != Connecting then x.s.phase else if connectError then Closing else Relay
  {
  }

  lemma FlushPhases(x: State, writes: seq<WriteOutcome>)
    ensures ShutRemote(FlushRemote(x, writes)).s.phase == x.s.phase
  {
    hide Flush;
  }

  lemma RemotePhases(x: State, e: RemoteEvent)
    ensures var y := OnRemote(x, e);
            if x.s.phase == Connecting && e.writable then y.s.phase == Relay || y.s.phase == Closing
            else y.s.phase == x.s.phase
  {
    hide ReadRemote, Connect, FlushRemote, ShutRemote;
    var a := if e.readable then ReadRemote(x, e.script) else x;
    ReadRemoteTouches(x, e.script);
    ConnectPhases(a, e.connectError, e.here);
    FlushPhases(Connect(a, e.connectError, e.here), e.writes);
  }

  lemma ClientPhases(env: Env, x: State, e: ClientEvent, token: nat)
    ensures var y := OnClient(env, x, e, token);
            Rank(x.s.phase) <= Rank(y.s.phase) && (x.s.phase == Relay ==> y.s.phase == Relay)
  {
    hide ReadClient, WriteClient, ParseHttp, ParseTarget, ShakeDetect, ShakeGreeting, ShakeRequest;
    var a := if e.readable then ReadClient(x, e.script) else x;
    ReadClientKeepsPhase(x, e.script);
    WriteClientKeepsPhase(a, e.writes);
  }

  /** Over every event a session moves forward in the order of its phases, if at all; and once in
      relay it stays there. */
  lemma PhasesMoveForward(env: Env, x: State, e: Event)
    ensures var y := OnEvent(env, x, e);
            Rank(x.s.phase) <= Rank(y.s.phase) && (x.s.phase == Relay ==> y.s.phase == Relay)
  {
    hide OnClient, OnRemote;
    match e
    case FromRemote(r) => RemotePhases(x, r);
    case FromClient(c, token) => ClientPhases(env, x, c, token);
  }

  // ---------------------------------------------------------------- progress

  /** In relay, a remote that takes something at every write, often enough, has been sent all of the
      client's content so far, and is not watched for writing any more. */
  lemma UpstreamDrains(env: Env, x: State, e: RemoteEvent)
    requires Valid(env, x) && x.s.phase == Relay && e.writable
    requires Taking(e.writes) && |e.writes| >= |Pending(x.s.c2r)|
    ensures var y := OnRemote(x, e);
            && y.s.c2r == [] && y.h.remoteSent == Content(Plan(env, x.h.clientRead)) && !y.s.remoteInterest.writable
            && (x.s.clientEof ==> y.s.remoteWriteShutdown)
  {
    assert x.s.Remote() && QueueOk(x.s.c2r) && x.s.clientIn == [] && Same(Stand(x), Plan(env, x.h.clientRead));
    assert x.h.remoteSent + Pending(x.s.c2r) + [] == Content(Plan(env, x.h.clientRead));
    FlushDrains(x.s.c2r, e.writes);
    hide Valid, Flush, Plan, Pending, ReadRemote, Taking, QueueOk, Stand, Same;
    var a := if e.readable then ReadRemote(x, e.script) else x;
    ReadRemoteTouches(x, e.script);
    DrainRelay(a, e.writes);
  }

  lemma DrainRelay(a: State, writes: seq<WriteOutcome>)
    requires a.s.phase == Relay && Flush(a.s.c2r, writes) == Flushed([], Pending(a.s.c2r), true)
    ensures var y := ShutRemote(FlushRemote(a, writes));
            && y.s.c2r == [] && y.h.remoteSent == a.h.remoteSent + Pending(a.s.c2r) && y.s.phase == Relay
            && y.s.remoteToken == a.s.remoteToken && y.s.clientEof == a.s.clientEof
            && (a.s.clientEof && a.s.Remote() ==> y.s.remoteWriteShutdown)
  {
    if a.s.c2r == [] {
      assert a.h.remoteSent + [] == a.h.remoteSent;
    }
  }

  /** A client that takes something at every write, often enough, has been sent all that was queued
      for it; then a closing session, or one whose remote has ended, is listed for closing. */
  lemma DownstreamDrains(x: State, writes: seq<WriteOutcome>)
    requires QueueOk(x.s.r2c) && Taking(writes) && |writes| >= |Pending(x.s.r2c)|
    ensures var y := WriteClient(x, writes);
            && y.s.r2c == [] && y.h.clientSent == x.h.clientSent + Pending(x.s.r2c)
            && (x.s.closeAfterFlush || x.s.remoteEof ==> y.h.queued)
            && (x.s.remoteEof ==> y.s.clientWriteShutdown && y.s.closeReason == Some(RemoteClosed))
  {
    FlushDrains(x.s.r2c, writes);
    hide Flush, Pending, QueueOk, Taking;
  }

  // ---------------------------------------------------------------- the client's end is passed on

  /** In relay, once the client has ended and nothing waits for the remote, its write half is shut. */
  ghost predicate PassedOn(x: State) {
    x.s.phase == Relay ==> x.s.Remote() && (x.s.clientEof && x.s.c2r == [] ==> x.s.remoteWriteShutdown)
  }

  lemma ShutRemotePassesOn(x: State)
    requires x.s.phase == Relay ==> x.s.Remote()
    ensures PassedOn(ShutRemote(x))
  {
  }

  lemma RemotePassesOn(x: State, e: RemoteEvent)
    requires PassedOn(x) && x.s.Remote()
    ensures PassedOn(OnRemote(x, e))
  {
    hide ReadRemote, Connect, FlushRemote, ShutRemote;
    var a := if e.readable then ReadRemote(x, e.script) else x;
    ReadRemoteTouches(x, e.script);
    var c := Connect(a, e.connectError, e.here);
    ConnectKeepsToken(a, e.connectError, e.here);
    FlushKeepsToken(c, e.writes);
    ShutRemotePassesOn(FlushRemote(c, e.writes));
  }

  lemma ConnectKeepsToken(x: State, connectError: bool, here: SockAddr)
    ensures Connect(x, connectError, here).s.remoteToken == x.s.remoteToken
  {
    hide SuccessReply, FailureReply;
  }

  lemma FlushKeepsToken(x: State, writes: seq<WriteOutcome>)
    ensures FlushRemote(x, writes).s.remoteToken == x.s.remoteToken
    ensures ShutRemote(FlushRemote(x, writes)).s.remoteToken == x.s.remoteToken
  {
    hide Flush;
  }

  lemma TakeClientPassesOn(x: State, outcome: ReadOutcome)
    requires PassedOn(x)
    ensures PassedOn(TakeClient(x, outcome))
  {
  }

  lemma {:induction false} ReadClientPassesOn(x: State, script: seq<ReadOutcome>)
    requires PassedOn(x)
    ensures PassedOn(ReadClient(x, script))
    decreases |script|
  {
    hide Kernel, TakeClient, PassedOn;
    if script != [] {
      var outcome := Kernel(x.s.clientEof, script[0]);
      TakeClientPassesOn(x, outcome);
      if outcome.Data? { ReadClientPassesOn(TakeClient(x, outcome), script[1..]); }
    }
  }

  lemma WriteClientPassesOn(x: State, writes: seq<WriteOutcome>)
    requires PassedOn(x)
    ensures PassedOn(WriteClient(x, writes))
  {
    hide Flush;
  }

  lemma {:induction false} ShakePassesOn(env: Env, x: State, token: nat)
    ensures x.s.phase == Relay ==> Shake(env, x, token) == x
    ensures x.s.phase != Relay ==> Shake(env, x, token).s.phase != Relay
    decreases 5 - Rank(x.s.phase)
  {
    hide ParseHttp, ParseTarget, ShakeHttp, ShakeRequest, ShakeGreeting;
    GreetingPhases(x);
    var y := ShakeStep(env, x, token);
    if y.s.phase != x.s.phase { ShakePassesOn(env, y, token); }
  }

  lemma GreetingPhases(x: State)
    ensures ShakeGreeting(x).s.phase == Relay ==> x.s.phase == Relay
  {
  }

  lemma ClientPassesOn(env: Env, x: State, e: ClientEvent, token: nat)
    requires PassedOn(x)
    ensures PassedOn(OnClient(env, x, e, token))
  {
    hide ReadClient, WriteClient, Shake;
    var a := if e.readable then ReadClient(x, e.script) else x;
    ReadClientPassesOn(x, e.script);
    WriteClientPassesOn(a, e.writes);
    ShakePassesOn(env, if e.writable then WriteClient(a, e.writes) else a, token);
  }

  /** After every run: in relay, the end of the client's stream has been passed on as soon as nothing
      waits for the remote. */
  lemma {:induction false} EndIsPassedOn(env: Env, events: seq<Event>)
    ensures PassedOn(RunEvents(env, events))
  {
    if events != [] {
      var x, e := RunEvents(env, events[..|events| - 1]), events[|events| - 1];
      EndIsPassedOn(env, events[..|events| - 1]);
      hide RunEvents, PassedOn, OnRemote, OnClient;
      match e
      case FromRemote(r) => if x.s.Remote() { RemotePassesOn(x, r); }
      case FromClient(c, token) => ClientPassesOn(env, x, c, token);
    }
  }

  // ---------------------------------------------------------------- a connection's first event

  lemma {:induction false} ShakeTraffic(env: Env, x: State, token: nat)
    requires x.s.Remote() ==> x.s.phase == Connecting
    ensures var y := Shake(env, x, token);
            Quietly(x, y, token) && (y.s.Remote() ==> y.s.phase == Connecting)
    decreases 5 - Rank(x.s.phase)
  {
    StepsQuietly(env, x, token);
    if x.s.Remote() {
      assert ShakeStep(env, x, token) == x;
    } else {
      var y := ShakeStep(env, x, token);
      hide ShakeStep;
      if y.s.phase != x.s.phase { ShakeTraffic(env, y, token); }
    }
  }

  /** A client whose first bytes come in one read. */
  function Opening(bytes: seq<Byte>): ClientEvent { ClientEvent(true, [Data(bytes)], false, []) }

  lemma FirstRead(bytes: seq<Byte>)
    requires bytes != []
    ensures var a := ReadClient(START, [Data(bytes)]);
            a == State(NEW_SESSION.(clientIn := bytes), NO_HISTORY.(clientRead := bytes))
  {
  }

  lemma FirstReadInOrder(env: Env, bytes: seq<Byte>)
    requires bytes != []
    ensures InOrder(env, State(NEW_SESSION.(clientIn := bytes), NO_HISTORY.(clientRead := bytes)))
  {
    NewSessionIsValid(env);
    FirstRead(bytes);
    ReadClientKeeps(env, START, Plan(env, []), [Data(bytes)]);
    hide InOrder, Plan;
  }

  lemma Connected(env: Env, c: State)
    requires InOrder(env, c) && Stand(c).phase == Connecting && (c.s.Remote() ==> c.s.phase == Connecting)
    ensures c.s.Remote() && c.s.phase == Connecting && c.h.remoteSent == []
  {
    hide Fresh, DownstreamOk;
  }

  lemma ShakesToPlan(env: Env, bytes: seq<Byte>, token: nat)
    requires bytes != []
    ensures var a := State(NEW_SESSION.(clientIn := bytes), NO_HISTORY.(clientRead := bytes));
            Stand(Shake(env, a, token)) == Plan(env, bytes) && InOrder(env, Shake(env, a, token))
  {
    var a := State(NEW_SESSION.(clientIn := bytes), NO_HISTORY.(clientRead := bytes));
    FirstReadInOrder(env, bytes);
    ShakeStands(env, a, token);
    assert [] + [] == a.h.remoteSent + Pending(a.s.c2r);
    assert INITIAL.clientIn + bytes == bytes;
    hide Run, Shake, InOrder;
  }

  /** After it the session stands where the plan of those bytes does. */
  lemma FirstEvent(env: Env, bytes: seq<Byte>, token: nat)
    requires bytes != [] && Plan(env, bytes).phase == Connecting
    ensures var y := OnClient(env, START, Opening(bytes), token);
            && Valid(env, y) && y.h.clientRead == bytes
            && y.s.phase == Connecting && y.s.Remote() && Stand(y) == Plan(env, bytes)
            && y.h.early == [] && y.h.late == [] && y.h.remoteSent == []
            && !y.s.clientEof && !y.s.remoteEof && !y.s.remoteWriteShutdown
  {
    hide Shake, ReadClient, InOrder, Valid, Plan, DataOf;
    var a := ReadClient(START, [Data(bytes)]);
    FirstRead(bytes);
    NewSessionIsValid(env);
    OnClientKeeps(env, START, Opening(bytes), token);
    FirstData(bytes);
    ShakesToPlan(env, bytes, token);
    ShakeTraffic(env, a, token);
    var c := Shake(env, a, token);
    Connected(env, c);
    assert BothDone(c) == c;
  }

  lemma FirstData(bytes: seq<Byte>)
    requires bytes != []
    ensures [] + DataOf(false, [Data(bytes)]) == bytes
  {
  }

  // ---------------------------------------------------------------- what gets ahead of the connection

  /** A SOCKS5 client that asks for an address, and what follows in the same read. */
  function Hello(a: SockAddr,
                 rest: seq<Byte>): seq<Byte> { GreetingBytes([NO_AUTH]) + (EncodeReply(CMD_CONNECT, a) + rest) }

  /** An end of stream read while connecting shuts an idle remote at once, whatever the client's buffer
      still holds. */
  lemma EofShutsIdleRemote(env: Env, y: State, token: nat)
    requires y.s.phase == Connecting && y.s.Remote() && y.s.c2r == [] && !y.s.remoteEof && !y.s.remoteWriteShutdown
    ensures var x := OnClient(env, y, ClientEvent(true, [Eof], false, []), token);
            && x.s.remoteWriteShutdown && x.s.clientIn == y.s.clientIn && x.h.remoteSent == y.h.remoteSent
            && x.h.clientRead == y.h.clientRead
  {
    hide ParseHttp, ParseTarget;
    var a := TakeClient(y, Eof);
    assert ReadClient(y, [Eof]) == a;
    assert Shake(env, a, token) == a by { assert ShakeStep(env, a, token) == a; }
  }

  lemma NothingQueued(env: Env, y: State)
    requires Valid(env, y) && Stand(y).upstream == []
    ensures y.s.c2r == []
  {
    assert y.h.remoteSent + Pending(y.s.c2r) == [];
    EmptyPending(y.s.c2r);
    hide Fresh, DownstreamOk, Plan, Pending;
  }

  /** The end of the client's stream, read before the connection is made, cuts off a byte that was
      sent before it: the remote's write half is shut, and the byte is still in the client's buffer. */
  lemma EofWhileConnectingCuts(env: Env, a: SockAddr, token: nat)
    requires env.connect(a)
    ensures var x := RunEvents(env, [FromClient(Opening(Hello(a, [65])), token),
                                     FromClient(ClientEvent(true, [Eof], false, []), token)]);
            x.s.remoteWriteShutdown && x.h.remoteSent == [] && Content(Plan(env, x.h.clientRead)) == [65]
  {
    var hello, eof := Opening(Hello(a, [65])), ClientEvent(true, [Eof], false, []);
    SocksConnect(env, [NO_AUTH], a, [65]);
    TwoEvents(env, FromClient(hello, token), FromClient(eof, token));
    hide Valid, Plan, OnClient, Hello, RunEvents, Stand;
    var y := OnClient(env, START, hello, token);
    FirstEvent(env, Hello(a, [65]), token);
    NothingQueued(env, y);
    StandHolds(y);
    EofShutsIdleRemote(env, y, token);
  }

  lemma StandHolds(y: State)
    ensures Stand(y).clientIn == y.s.clientIn
  {
  }

  lemma TwoEvents(env: Env, first: Event, second: Event)
    ensures RunEvents(env, [first, second]) == OnEvent(env, OnEvent(env, START, first), second)
  {
    hide OnEvent;
    assert [first, second][..1] == [first] && [first][..0] == [];
    assert RunEvents(env, [first]) == OnEvent(env, START, first);
  }

  /** One byte of the remote, read before the connection is finished in the same event. */
  lemma EarlyByte(y: State, here: SockAddr)
    requires y.s.phase == Connecting && y.s.Remote() && !y.s.remoteEof && y.h.early == []
    ensures var x := OnRemote(y, RemoteEvent(true, [Data([65])], true, false, here, []));
            && x.h.early == [65] && x.h.verdict == SuccessReply(y.s.protocol, here)
            && x.h.late == y.h.late && x.h.clientRead == y.h.clientRead
  {
    var a := TakeRemote(y, Data([65]));
    assert [Data([65])][1..] == [];
    assert ReadRemote(y, [Data([65])]) == a;
    assert [] + [65] == a.h.early;
    ConnectAnswers(a, here);
    var b := Connect(a, false, here);
    FlushAddsNothing(b);
    hide Connect, FlushRemote, ShutRemote, ReadRemote, TakeRemote, SuccessReply;
  }

  lemma ConnectAnswers(a: State, here: SockAddr)
    requires a.s.phase == Connecting
    ensures var b := Connect(a, false, here);
            && b.h == a.h.(verdict := SuccessReply(a.s.protocol, here), local := here)
  {
  }

  lemma FlushAddsNothing(b: State)
    ensures var c := ShutRemote(FlushRemote(b, []));
            c.h.early == b.h.early && c.h.late == b.h.late && c.h.verdict == b.h.verdict
              && c.h.clientRead == b.h.clientRead
  {
    assert Flush(b.s.c2r, []) == Flushed(b.s.c2r, [], true);
    hide Flush, ShutRemote;
    ShutAddsNothing(FlushRemote(b, []));
  }

  lemma ShutAddsNothing(b: State)
    ensures var c := ShutRemote(b);
            c.h.early == b.h.early && c.h.late == b.h.late && c.h.verdict == b.h.verdict
              && c.h.clientRead == b.h.clientRead
  {
  }

  /** A byte of the remote that is read before the connection is finished reaches the client before the
      reply to its request. */
  lemma EarlyByteOvertakesReply(env: Env, a: SockAddr, token: nat, here: SockAddr)
    requires env.connect(a)
    ensures var x := RunEvents(env, [FromClient(Opening(Hello(a, [])), token),
                                     FromRemote(RemoteEvent(true, [Data([65])], true, false, here, []))]);
            && Told(x) == GREETING_OK + [65] + EncodeReply(REP_SUCCEEDED, here)
            && Told(x) != GREETING_OK + EncodeReply(REP_SUCCEEDED, here) + [65]
  {
    var hello, early := Opening(Hello(a, [])), RemoteEvent(true, [Data([65])], true, false, here, []);
    SocksConnect(env, [NO_AUTH], a, []);
    TwoEvents(env, FromClient(hello, token), FromRemote(early));
    DownstreamOrder(env, [FromClient(hello, token), FromRemote(early)]);
    hide Valid, Plan, OnClient, OnRemote, Hello, RunEvents, Stand, Pending, EncodeReply;
    var y := OnClient(env, START, hello, token);
    FirstEvent(env, Hello(a, []), token);
    StandSpeaks(y);
    EarlyByte(y, here);
    OvertakenReply(here);
  }

  lemma StandSpeaks(y: State)
    ensures Stand(y).protocol == y.s.protocol
  {
  }

  lemma OvertakenReply(here: SockAddr)
    ensures var reply := EncodeReply(REP_SUCCEEDED, here);
            && GREETING_OK + [65] + reply != GREETING_OK + reply + [65]
            && GREETING_OK + [65] + reply + [] == GREETING_OK + [65] + reply
  {
    var reply := EncodeReply(REP_SUCCEEDED, here);
    assert (GREETING_OK + [65] + reply)[2] == 65 && (GREETING_OK + reply + [65])[2] == VERSION;
  }

  /** Writing to the client while connecting. */
  lemma WriteWhileConnecting(env: Env, y: State, writes: seq<WriteOutcome>, token: nat)
    requires y.s.phase == Connecting && !y.s.clientEof
    ensures var x := OnClient(env, y, ClientEvent(false, [], true, writes), token);
            var w := WriteClient(y, writes);
            x == w.(s := Rearm(w.s)) && w.s.phase == Connecting && w.s.remoteToken == y.s.remoteToken
  {
    hide ParseHttp, ParseTarget, Flush;
    var w := WriteClient(y, writes);
    WriteClientKeepsPhase(y, writes);
    assert w.s.clientEof == y.s.clientEof;
    assert Shake(env, w, token) == w by { assert ShakeStep(env, w, token) == w; }
  }

  /** A remote that ends before its connection is finished in the same event, with nothing queued for
      the client: the session is listed as closed by its remote, and then the reply is queued. */
  lemma EofBeforeReply(y: State, here: SockAddr)
    requires y.s.phase == Connecting && y.s.Remote() && !y.s.remoteEof && y.s.r2c == [] && y.s.protocol == Socks5
    ensures var x := OnRemote(y, RemoteEvent(true, [Eof], true, false, here, []));
            && x.s.phase == Relay && x.s.closeReason == Some(RemoteClosed) && x.h.queued
            && x.s.r2c == [Chunk(EncodeReply(REP_SUCCEEDED, here), 0)]
  {
    var a := TakeRemote(y, Eof);
    assert ReadRemote(y, [Eof]) == a;
    EofThenConnect(a, here);
    var b := Connect(a, false, here);
    FlushLeavesReplies(b);
    hide Connect, FlushRemote, ShutRemote, ReadRemote, TakeRemote, EncodeReply;
  }

  lemma EofThenConnect(a: State, here: SockAddr)
    requires a.s.phase == Connecting && a.s.protocol == Socks5 && a.s.r2c == []
    ensures var b := Connect(a, false, here);
            && b.s.phase == Relay && b.s.closeReason == a.s.closeReason && b.h.queued == a.h.queued
            && b.s.r2c == [Chunk(EncodeReply(REP_SUCCEEDED, here), 0)]
  {
    assert EncodeReply(REP_SUCCEEDED, here)[0] == VERSION;
    hide EncodeReply;
  }

  lemma FlushLeavesReplies(b: State)
    ensures var c := ShutRemote(FlushRemote(b, []));
            c.s.phase == b.s.phase && c.s.closeReason == b.s.closeReason && c.h.queued == b.h.queued
              && c.s.r2c == b.s.r2c
  {
  }

  const FLUSH: ClientEvent := ClientEvent(false, [], true, [Took(2), Took(2)])

  /** A session that is connecting, once its greeting was written. */
  lemma AfterFlush(env: Env, y: State, token: nat)
    requires y.s.phase == Connecting && y.s.Remote() && !y.s.clientEof
    requires !y.s.remoteEof && QueueOk(y.s.r2c) && |Pending(y.s.r2c)| <= 2
    ensures var z := OnClient(env, y, FLUSH, token);
            z.s.phase == Connecting && z.s.Remote() && !z.s.remoteEof && z.s.r2c == [] && z.s.protocol == y.s.protocol
  {
    TwoTakes();
    hide OnClient, Taking, WriteClient, Pending, QueueOk;
    DownstreamDrains(y, [Took(2), Took(2)]);
    WriteWhileConnecting(env, y, [Took(2), Took(2)], token);
    WriteKeepsSides(y, [Took(2), Took(2)]);
  }

  /** So a session in relay can be listed as closed by its remote with its reply undelivered. */
  lemma EarlyEofDropsReply(env: Env, a: SockAddr, token: nat, here: SockAddr)
    requires env.connect(a)
    ensures var x := RunEvents(env, [FromClient(Opening(Hello(a, [])), token), FromClient(FLUSH, token),
                                     FromRemote(RemoteEvent(true, [Eof], true, false, here, []))]);
            && x.s.phase == Relay && x.s.closeReason == Some(RemoteClosed) && x.h.queued
            && Pending(x.s.r2c) == EncodeReply(REP_SUCCEEDED, here)
  {
    SocksConnect(env, [NO_AUTH], a, []);
    ThreeEvents(env, FromClient(Opening(Hello(a, [])), token), FromClient(FLUSH, token),
                FromRemote(RemoteEvent(true, [Eof], true, false, here, [])));
    hide Valid, Plan, OnClient, OnRemote, Hello, RunEvents, Stand, EncodeReply, Pending;
    var y := OnClient(env, START, Opening(Hello(a, [])), token);
    FirstEvent(env, Hello(a, []), token);
    StandSpeaks(y);
    GreetingWaits(env, y);
    AfterFlush(env, y, token);
    EofBeforeReply(OnClient(env, y, FLUSH, token), here);
    OnePending(EncodeReply(REP_SUCCEEDED, here));
  }

  lemma OnePending(b: seq<Byte>)
    ensures Pending([Chunk(b, 0)]) == b
  {
  }

  lemma ThreeEvents(env: Env, first: Event, second: Event, third: Event)
    ensures RunEvents(env, [first, second, third]) ==
      OnEvent(env, OnEvent(env, OnEvent(env, START, first), second), third)
  {
    hide OnEvent;
    TwoEvents(env, first, second);
    assert [first, second, third][..2] == [first, second];
  }

  lemma TwoTakes()
    ensures Taking([Took(2), Took(2)])
  {
  }

  lemma WriteKeepsSides(y: State, writes: seq<WriteOutcome>)
    ensures WriteClient(y, writes).s.remoteEof == y.s.remoteEof && WriteClient(y, writes).s.protocol == y.s.protocol
  {
  }

  lemma GreetingWaits(env: Env, y: State)
    requires Valid(env, y) && Stand(y) == Plan(env, y.h.clientRead) && Plan(env, y.h.clientRead).replies == GREETING_OK
    requires y.s.phase == Connecting && y.h.early == []
    ensures QueueOk(y.s.r2c) && |Pending(y.s.r2c)| <= 2
  {
    assert Stand(y).replies == y.h.replied;
    assert y.h.clientSent + Pending(y.s.r2c) == GREETING_OK + [] + [] + [];
    assert |y.h.clientSent + Pending(y.s.r2c)| == 2;
    hide Fresh, Plan, Pending;
  }
}
