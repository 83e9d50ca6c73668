/** The proxy's event handlers for one session: loops over reads and writes, and the state loop, each
    doing to the session's record exactly what the model of it says. */
module ProxySession {
  import opened Bytes
  import opened Oracles
  import opened HttpRewrite
  import opened Socks5Codec
  import opened Handshake
  import opened OffsetQueue
  import opened SessionModel
  import opened SessionRuns

  /** Each handler returns the session, and how often it listed the session for closing. */
  ghost predicate Lists(h0: History, h: History, closes: nat) { h.queued <==> h0.queued || closes > 0 }

  // ---------------------------------------------------------------- the remote's events

  /** One read of the remote. */
  method TakeFromRemote(s0: Session, ghost h0: History, outcome: ReadOutcome)
    returns (s: Session, ghost h: History, closes: nat)
    ensures State(s, h) == TakeRemote(State(s0, h0), outcome) && Lists(h0, h, closes) && (outcome.Data? ==> closes == 0)
  {
    s, h, closes := s0, h0, 0;
    match outcome {
      case ReadBlock =>
      case ReadFail =>
        s, h, closes := s.(closeReason := Some(RemoteReadError)), h.(queued := true), 1;
      case Eof =>
        s := s.(remoteEof := true);
        if s.r2c == [] {
          s, h, closes := s.(closeReason := Some(RemoteClosed)), h.(queued := true), 1;
        }
      case Data(b) =>
        s, h := s.(down := s.down + |b|, r2c := s.r2c + [Chunk(b, 0)]), Reading(h, s.phase, b);
    }
  }

  method ReadRemoteLoop(s0: Session, ghost h0: History, script: seq<ReadOutcome>)
    returns (s: Session, ghost h: History, closes: nat)
    ensures State(s, h) == ReadRemote(State(s0, h0), script) && Lists(h0, h, closes)
  {
    hide Kernel, TakeRemote, ReadRemote;
    s, h, closes := s0, h0, 0;
    var i := 0;
    assert script[0..] == script;
    while i < |script|
      invariant 0 <= i <= |script| && closes == 0 && h.queued == h0.queued
      invariant ReadRemote(State(s0, h0), script) == ReadRemote(State(s, h), script[i..])
    {
      ReadStep(State(s, h), script, i);
      var outcome := Kernel(s.remoteEof, script[i]);
      i := i + 1;
      s, h, closes := TakeFromRemote(s, h, outcome);
      if !outcome.Data? { return; }
    }
    NoMoreReads(State(s, h), script[i..]);
  }

  lemma NoMoreReads(x: State, script: seq<ReadOutcome>)
    requires script == []
    ensures ReadRemote(x, script) == x && ReadClient(x, script) == x
  {
  }

  lemma ReadStep(x: State, script: seq<ReadOutcome>, i: nat)
    requires i < |script|
    ensures var outcome := Kernel(x.s.remoteEof, script[i]);
            ReadRemote(x, script[i..]) ==
              if outcome.Data? then ReadRemote(TakeRemote(x, outcome), script[i + 1..]) else TakeRemote(x, outcome)
  {
  }

  lemma RepliesSpeak(here: SockAddr)
    ensures EncodeReply(REP_SUCCEEDED, here) != [] && EncodeReply(REP_REFUSED, UNSPECIFIED) != []
    ensures BAD_GATEWAY != [] && ESTABLISHED != []
  {
  }

  method Refuse(s0: Session, ghost h0: History) returns (s: Session, ghost h: History)
    ensures State(s, h) == FailConnect(State(s0, h0))
  {
    RepliesSpeak(UNSPECIFIED);
    var r2c := s0.r2c;
    ghost var reply := FailureReply(s0.protocol);
    match s0.protocol {
      case Socks5 => r2c := r2c + [Chunk(EncodeReply(REP_REFUSED, UNSPECIFIED), 0)];
      case HttpTunnel => r2c := r2c + [Chunk(BAD_GATEWAY, 0)];
      case HttpForward => r2c := r2c + [Chunk(BAD_GATEWAY, 0)];
      case Unknown =>
    }
    assert r2c == if reply == [] then s0.r2c else s0.r2c + [Chunk(reply, 0)];
    hide EncodeReply, Ascii, FailureReply;
    s := s0.(r2c := r2c);
    s := s.(closeAfterFlush := true, closeReason := Some(ConnectFailed), phase := Closing);
    h := h0.(verdict := FailureReply(s.protocol));
  }

  method Answer(s0: Session, ghost h0: History, here: SockAddr) returns (s: Session, ghost h: History)
    ensures State(s, h) == AnswerSuccess(State(s0, h0), here)
  {
    RepliesSpeak(here);
    var r2c := s0.r2c;
    ghost var reply := SuccessReply(s0.protocol, here);
    match s0.protocol {
      case Socks5 => r2c := r2c + [Chunk(EncodeReply(REP_SUCCEEDED, here), 0)];
      case HttpTunnel => r2c := r2c + [Chunk(ESTABLISHED, 0)];
      case HttpForward =>
      case Unknown =>
    }
    assert r2c == if reply == [] then s0.r2c else s0.r2c + [Chunk(reply, 0)];
    hide EncodeReply, Ascii, SuccessReply;
    s := s0.(r2c := r2c, phase := Relay);
    h := h0.(verdict := SuccessReply(s.protocol, here), local := here);
  }

  /** The connection is made, or has failed. */
  method Finish(s0: Session, ghost h0: History, connectError: bool, here: SockAddr)
    returns (s: Session, ghost h: History)
    requires s0.phase == Connecting
    ensures State(s, h) == Connect(State(s0, h0), connectError, here) && h.queued == h0.queued
  {
    hide SuccessReply, FailureReply;
    if connectError {
      s, h := Refuse(s0, h0);
    } else {
      s, h := Answer(s0, h0, here);
      if s.clientIn != [] {
        var extra := s.clientIn;
        s := s.(clientIn := [], up := s.up + |extra|, c2r := s.c2r + [Chunk(extra, 0)]);
      }
    }
  }

  method FlushToRemote(s0: Session, ghost h0: History, writes: seq<WriteOutcome>)
    returns (s: Session, ghost h: History, closes: nat)
    ensures State(s, h) == FlushRemote(State(s0, h0), writes) && Lists(h0, h, closes)
  {
    hide Flush;
    s, h, closes := s0, h0, 0;
    if s.c2r != [] && s.phase == Relay {
      var rest, ok;
      ghost var sent;
      rest, sent, ok := FlushQueue(s.c2r, writes);
      s, h := s.(c2r := rest), h.(remoteSent := h.remoteSent + sent);
      if !ok {
        s, h, closes := s.(closeReason := Some(RemoteWriteError)), h.(queued := true), 1;
      }
    }
  }

  method ShutRemoteWrite(s0: Session, ghost h0: History) returns (s: Session, ghost h: History)
    ensures State(s, h) == ShutRemote(State(s0, h0)) && h.queued == h0.queued
  {
    s, h := s0, h0;
    if s.clientEof && s.c2r == [] && !s.remoteWriteShutdown && s.Remote() {
      s := s.(remoteWriteShutdown := true);
    }
  }

  /** Ask for the wake-ups the session needs. */
  method Rearmed(s0: Session) returns (s: Session)
    ensures s == Rearm(s0)
  {
    s := s0;
    if s.Remote() {
      var write := s.phase == Connecting || s.c2r != [];
      s := s.(remoteInterest := Interest(!s.remoteEof || !write, write));
    }
    s := s.(clientInterest := Interest(!s.clientEof || s.r2c == [], s.r2c != []));
  }

  method OnRemoteEvent(s0: Session, ghost h0: History, e: RemoteEvent)
    returns (s: Session, ghost h: History, closes: nat)
    ensures State(s, h) == OnRemote(State(s0, h0), e) && Lists(h0, h, closes)
  {
    hide ReadRemote, Connect, FlushRemote, ShutRemote, Rearm;
    s, h, closes := s0, h0, 0;
    if e.readable {
      s, h, closes := ReadRemoteLoop(s, h, e.script);
    }
    if e.writable {
      if s.phase == Connecting {
        s, h := Finish(s, h, e.connectError, e.here);
      } else {
        NotConnecting(State(s, h), e.connectError, e.here);
      }
      var more;
      s, h, more := FlushToRemote(s, h, e.writes);
      closes := closes + more;
      s, h := ShutRemoteWrite(s, h);
    }
    s := Rearmed(s);
  }

  lemma NotConnecting(x: State, connectError: bool, here: SockAddr)
    requires x.s.phase != Connecting
    ensures Connect(x, connectError, here) == x
  {
  }

  // ---------------------------------------------------------------- the client's events

  /** One read of the client. */
  method TakeFromClient(s0: Session, ghost h0: History, outcome: ReadOutcome)
    returns (s: Session, ghost h: History, closes: nat)
    ensures State(s, h) == TakeClient(State(s0, h0), outcome) && Lists(h0, h, closes) && (outcome.Data? ==> closes == 0)
  {
    s, h, closes := s0, h0, 0;
    match outcome {
      case ReadBlock =>
      case ReadFail =>
        s, h, closes := s.(closeReason := Some(ClientReadError)), h.(queued := true), 1;
      case Eof =>
        s := s.(clientEof := true);
        s, h := ShutRemoteWrite(s, h);
        if s.remoteEof && s.r2c == [] {
          s, h, closes := s.(closeReason := Some(ClientClosed)), h.(queued := true), 1;
        }
      case Data(b) =>
        h := h.(clientRead := h.clientRead + b);
        if s.phase == Relay {
          s := s.(up := s.up + |b|, c2r := s.c2r + [Chunk(b, 0)]);
        } else {
          s := s.(clientIn := s.clientIn + b);
        }
    }
  }

  lemma ReadClientStep(x: State, script: seq<ReadOutcome>, i: nat)
    requires i < |script|
    ensures var outcome := Kernel(x.s.clientEof, script[i]);
            ReadClient(x, script[i..]) ==
              if outcome.Data? then ReadClient(TakeClient(x, outcome), script[i + 1..]) else TakeClient(x, outcome)
  {
  }

  method ReadClientLoop(s0: Session, ghost h0: History, script: seq<ReadOutcome>)
    returns (s: Session, ghost h: History, closes: nat)
    ensures State(s, h) == ReadClient(State(s0, h0), script) && Lists(h0, h, closes)
  {
    hide Kernel, TakeClient, ReadClient;
    s, h, closes := s0, h0, 0;
    var i := 0;
    assert script[0..] == script;
    while i < |script|
      invariant 0 <= i <= |script| && closes == 0 && h.queued == h0.queued
      invariant ReadClient(State(s0, h0), script) == ReadClient(State(s, h), script[i..])
    {
      ReadClientStep(State(s, h), script, i);
      var outcome := Kernel(s.clientEof, script[i]);
      i := i + 1;
      s, h, closes := TakeFromClient(s, h, outcome);
      if !outcome.Data? { return; }
    }
    NoMoreReads(State(s, h), script[i..]);
  }

  method FlushToClient(s0: Session, ghost h0: History, writes: seq<WriteOutcome>)
    returns (s: Session, ghost h: History, closes: nat)
    ensures State(s, h) == FlushClient(State(s0, h0), writes) && Lists(h0, h, closes)
  {
    hide Flush;
    s, h, closes := s0, h0, 0;
    var rest, ok;
    ghost var sent;
    rest, sent, ok := FlushQueue(s.r2c, writes);
    s, h := s.(r2c := rest), h.(clientSent := h.clientSent + sent);
    if !ok {
      s, h, closes := s.(closeReason := Some(ClientWriteError)), h.(queued := true), 1;
    }
  }

  /** Shut the client's write half behind the remote's end, and list a session that is done. */
  method SettleClient(s0: Session, ghost h0: History) returns (s: Session, ghost h: History, closes: nat)
    ensures State(s, h) == Settle(State(s0, h0)) && Lists(h0, h, closes)
  {
    s, h, closes := s0, h0, 0;
    if s.remoteEof && s.r2c == [] && !s.clientWriteShutdown {
      s := s.(clientWriteShutdown := true);
    }
    if s.closeAfterFlush && s.r2c == [] {
      h, closes := h.(queued := true), closes + 1;
    }
    if s.remoteEof && s.r2c == [] {
      s, h, closes := s.(closeReason := Some(RemoteClosed)), h.(queued := true), closes + 1;
    }
  }

  method WriteToClient(s0: Session, ghost h0: History, writes: seq<WriteOutcome>)
    returns (s: Session, ghost h: History, closes: nat)
    ensures State(s, h) == WriteClient(State(s0, h0), writes) && Lists(h0, h, closes)
  {
    hide FlushClient, Settle;
    s, h, closes := FlushToClient(s0, h0, writes);
    var more;
    s, h, more := SettleClient(s, h);
    closes := closes + more;
  }

  // ---------------------------------------------------------------- the state loop

  /** A connection to the target is started, or a reply and the close are queued. */
  method DialTarget(env: Env, s0: Session, ghost h0: History, target: SockAddr, failure: seq<Byte>, token: nat)
    returns (s: Session, ghost h: History)
    ensures State(s, h) == StartDial(env, State(s0, h0), target, failure, token) && h.queued == h0.queued
  {
    s, h := s0, h0;
    if env.connect(target) {
      s := s.(remoteToken := Some(token), remoteInterest := Interest(true, true), phase := Connecting);
    } else {
      s := s.(r2c := s.r2c + [Chunk(failure, 0)]);
      h := h.(replied := h.replied + failure);
      s := s.(closeAfterFlush := true, phase := Closing, closeReason := Some(ConnectFailed));
    }
  }

  /** The first bytes of an HTTP client. */
  method DetectHttp(env: Env, s0: Session, ghost h0: History, token: nat)
    returns (s: Session, ghost h: History, closes: nat)
    ensures State(s, h) == ShakeHttp(env, State(s0, h0), ParseHttp(env, s0.clientIn), token) && Lists(h0, h, closes)
    ensures closes > 0 ==> s.phase == s0.phase
  {
    hide ParseHttp, StartDial, Taken;
    s, h, closes := s0, h0, 0;
    var parse := ParseHttpProxyRequest(env, s.clientIn);
    match parse {
      case Incomplete =>
      case Malformed(_) =>
        s, closes := s.(closeReason := Some(UnsupportedProtocol)), 1;
        h := h.(doomed := true, queued := true);
      case Done(r) =>
        s := TakeHttp(s, h, r);
        s, h := DialTarget(env, s, h, r.target, BAD_GATEWAY, token);
    }
  }

  /** A parsed request leaves the buffer, and what is to be sent on is queued. */
  method TakeHttp(s0: Session, ghost h0: History, r: HttpRequest) returns (s: Session)
    ensures var rest := s0.clientIn[Min(r.consumed, |s0.clientIn|)..];
            var left := if r.upstream != [] && r.protocol == HttpForward then [] else rest;
            State(s, h0) == Taken(State(s0, h0), left, r.target, r.display, r.protocol, r.upstream)
  {
    s := s0.(clientIn := s0.clientIn[Min(r.consumed, |s0.clientIn|)..]);
    s := s.(target := Some(r.target), display := Some(r.display), protocol := r.protocol);
    if r.upstream != [] {
      s := s.(up := s.up + |r.upstream|, c2r := s.c2r + [Chunk(r.upstream, 0)]);
      if s.protocol == HttpForward { s := s.(clientIn := []); }
    }
  }

  method ReadGreeting(s0: Session, ghost h0: History) returns (s: Session, ghost h: History)
    ensures State(s, h) == ShakeGreeting(State(s0, h0)) && h.queued == h0.queued
  {
    s, h := s0, h0;
    if |s.clientIn| < 2 { return; }
    var nmethods := s.clientIn[1] as int;
    if |s.clientIn| < 2 + nmethods { return; }
    var methods := s.clientIn[2..2 + nmethods];
    s := s.(clientIn := s.clientIn[2 + nmethods..]);
    if NO_AUTH in methods {
      s := s.(r2c := s.r2c + [Chunk(GREETING_OK, 0)], phase := Request);
      h := h.(replied := h.replied + GREETING_OK);
    } else {
      s := s.(r2c := s.r2c + [Chunk(GREETING_REFUSED, 0)]);
      h := h.(replied := h.replied + GREETING_REFUSED);
      s := s.(closeAfterFlush := true, phase := Closing, closeReason := Some(NoAuthMethod));
    }
  }

  method ReadRequest(env: Env, s0: Session, ghost h0: History, token: nat) returns (s: Session, ghost h: History)
    ensures State(s, h) == ShakeRequest(env, State(s0, h0), ParseTarget(env, s0.clientIn), token)
    ensures h.queued == h0.queued
  {
    hide ParseTarget, StartDial, EncodeReply, Taken;
    s, h := s0, h0;
    match ParseTarget(env, s.clientIn) {
      case Incomplete =>
      case Malformed(reason) =>
        var reply := EncodeReply(RefusalCode(reason), UNSPECIFIED);
        s := s.(r2c := s.r2c + [Chunk(reply, 0)]);
        h := h.(replied := h.replied + reply);
        s := s.(closeAfterFlush := true, phase := Closing, closeReason := Some(Refused(reason)));
      case Done(r) =>
        s := TakeRequest(s, h, r);
        s, h := DialTarget(env, s, h, r.target, EncodeReply(REP_REFUSED, UNSPECIFIED), token);
    }
  }

  method TakeRequest(s0: Session, ghost h0: History, r: TargetRequest) returns (s: Session)
    ensures State(s, h0) ==
      Taken(State(s0, h0), s0.clientIn[Min(r.consumed, |s0.clientIn|)..], r.target, r.display, Socks5, [])
  {
    s := s0.(clientIn := s0.clientIn[Min(r.consumed, |s0.clientIn|)..]);
    s := s.(target := Some(r.target), display := Some(r.display), protocol := Socks5);
  }

  /** The state loop. */
  method ShakeLoop(env: Env, s0: Session, ghost h0: History, token: nat)
    returns (s: Session, ghost h: History, closes: nat)
    ensures State(s, h) == Shake(env, State(s0, h0), token) && Lists(h0, h, closes)
  {
    hide ParseHttp, ParseTarget, ShakeHttp, ShakeRequest, ShakeGreeting;
    s, h, closes := s0, h0, 0;
    while true
      invariant Shake(env, State(s0, h0), token) == Shake(env, State(s, h), token)
      invariant closes == 0 && h.queued == h0.queued
      decreases 5 - Rank(s.phase)
    {
      var was := s.phase;
      match s.phase {
        case DetectProtocol =>
          if s.clientIn == [] { return; }
          if s.clientIn[0] == VERSION {
            s := s.(protocol := Socks5, phase := Greeting);
          } else {
            s, h, closes := DetectHttp(env, s, h, token);
          }
        case Greeting => s, h := ReadGreeting(s, h);
        case Request => s, h := ReadRequest(env, s, h, token);
        case Connecting => return;
        case Relay => return;
        case Closing => return;
      }
      if s.phase == was { return; }
    }
  }

  // ---------------------------------------------------------------- an event on the client

  method OnClientEvent(env: Env, s0: Session, ghost h0: History, e: ClientEvent, token: nat)
    returns (s: Session, ghost h: History, closes: nat)
    ensures State(s, h) == OnClient(env, State(s0, h0), e, token) && Lists(h0, h, closes)
  {
    hide ReadClient, WriteClient, Shake, Rearm;
    s, h, closes := s0, h0, 0;
    var more;
    if e.readable {
      s, h, more := ReadClientLoop(s, h, e.script);
      closes := closes + more;
    }
    if e.writable {
      s, h, more := WriteToClient(s, h, e.writes);
      closes := closes + more;
    }
    s, h, more := ShakeLoop(env, s, h, token);
    closes := closes + more;
    if s.clientEof && s.remoteEof && s.r2c == [] && s.c2r == [] {
      s, h, closes := s.(closeReason := Some(BothClosed)), h.(queued := true), closes + 1;
    }
    s := Rearmed(s);
  }
}
