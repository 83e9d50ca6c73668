/** Whole runs of a proxied connection: every event keeps the session valid, and what that means for
    the bytes in each direction, for half-close, for wake-ups and for closing. */
module SessionRuns {
  import opened Bytes
  import opened Oracles
  import opened HttpRewrite
  import opened Socks5Codec
  import opened Handshake
  import opened OffsetQueue
  import opened SessionModel

  datatype ClientEvent = ClientEvent(readable: bool, script: seq<ReadOutcome>, writable: bool,
                                     writes: seq<WriteOutcome>)

  /** Once both sides have ended and nothing is queued either way, the session is done. */
  function BothDone(x: State): State {
    if x.s.clientEof && x.s.remoteEof && x.s.r2c == [] && x.s.c2r == [] then Blame(x, BothClosed) else x
  }

  /** An event on the client socket: read until it would block, write what is queued, go on with the
      handshake, then ask for the right wake-ups. The token is for the remote socket, if one is made. */
  function OnClient(env: Env, x: State, e: ClientEvent, token: nat): State {
    var a := if e.readable then ReadClient(x, e.script) else x;
    var b := if e.writable then WriteClient(a, e.writes) else a;
    var c := BothDone(Shake(env, b, token));
    c.(s := Rearm(c.s))
  }

  lemma {:induction false} ShakeStands(env: Env, x: State, token: nat)
    requires InOrder(env, x)
    ensures Stand(Shake(env, x, token)) == Run(env, Stand(x)) && InOrder(env, Shake(env, x, token))
    ensures Shake(env, x, token).h.clientRead == x.h.clientRead
    decreases 5 - Rank(x.s.phase)
  {
    if x.s.Remote() {
      DialledStays(env, x, token);
    } else {
      ShakeStepStands(env, x, token);
      StepsQuietly(env, x, token);
      var y := ShakeStep(env, x, token);
      PhaseShows(env, x, y, token);
      hide InOrder, ShakeStep, Step, Stand;
      if y.s.phase != x.s.phase {
        ShakeStands(env, y, token);
      }
    }
  }

  lemma DialledStays(env: Env, x: State, token: nat)
    requires InOrder(env, x) && x.s.Remote()
    ensures Shake(env, x, token) == x && Run(env, Stand(x)) == Stand(x)
  {
    hide Fresh, DownstreamOk;
  }

  /** The handshake adds replies, and leaves alone the history of all that passes through. */
  ghost predicate SameTraffic(a: History, b: History) {
    b == a.(replied := b.replied, doomed := b.doomed, queued := b.queued) && a.replied <= b.replied
  }

  /** No bytes pass and nothing ends; and a remote socket is made only on the way to Connecting, under
      the token that was offered. */
  ghost predicate Quietly(x: State, y: State, token: nat) {
    && SameTraffic(x.h, y.h)
    && y.s.clientEof == x.s.clientEof && y.s.remoteEof == x.s.remoteEof
    && y.s.remoteWriteShutdown == x.s.remoteWriteShutdown
    && (y.s.Remote() && !x.s.Remote() ==> y.s.phase == Connecting)
    && (y.s.remoteToken == x.s.remoteToken || y.s.remoteToken == Some(token))
  }

  lemma DialsQuietly(env: Env, x: State, a: SockAddr, failure: seq<Byte>, token: nat)
    ensures Quietly(x, StartDial(env, x, a, failure, token), token)
  {
  }

  lemma HttpQuietly(env: Env, x: State, parse: Parse<HttpRequest>, token: nat)
    ensures Quietly(x, ShakeHttp(env, x, parse, token), token)
  {
    hide StartDial;
    if parse.Done? {
      var r := parse.value;
      var rest := x.s.clientIn[Min(r.consumed, |x.s.clientIn|)..];
      var left := if r.upstream != [] && r.protocol == HttpForward then [] else rest;
      DialsQuietly(env, Taken(x, left, r.target, r.display, r.protocol, r.upstream), r.target, BAD_GATEWAY, token);
    }
  }

  lemma RequestQuietly(env: Env, x: State, parse: Parse<TargetRequest>, token: nat)
    ensures Quietly(x, ShakeRequest(env, x, parse, token), token)
  {
    hide StartDial;
    if parse.Done? {
      var r := parse.value;
      var rest := x.s.clientIn[Min(r.consumed, |x.s.clientIn|)..];
      DialsQuietly(env, Taken(x, rest, r.target, r.display, Socks5, []), r.target,
                   EncodeReply(REP_REFUSED, UNSPECIFIED), token);
    }
  }

  lemma GreetingQuietly(x: State, token: nat)
    ensures Quietly(x, ShakeGreeting(x), token)
  {
  }

  lemma StepsQuietly(env: Env, x: State, token: nat)
    ensures Quietly(x, ShakeStep(env, x, token), token)
  {
    hide ParseHttp, ParseTarget, ShakeHttp, ShakeRequest, ShakeGreeting;
    HttpQuietly(env, x, ParseHttp(env, x.s.clientIn), token);
    RequestQuietly(env, x, ParseTarget(env, x.s.clientIn), token);
    GreetingQuietly(x, token);
  }

  lemma PhaseShows(env: Env, x: State, y: State, token: nat)
    requires InOrder(env, x) && !x.s.Remote() && InOrder(env, y) && y == ShakeStep(env, x, token)
    ensures y.s.phase == x.s.phase <==> Stand(y).phase == Stand(x).phase
  {
    assert x.s.phase == Closing ==> y == x;
    hide Fresh, DownstreamOk, ShakeStep;
  }

  // ---------------------------------------------------------------- one event

  lemma OnRemoteKeeps(env: Env, x: State, e: RemoteEvent)
    requires Valid(env, x) && x.s.Remote()
    ensures Valid(env, OnRemote(x, e)) && OnRemote(x, e).h.clientRead == x.h.clientRead
  {
    OnRemoteMid(env, x, Plan(env, x.h.clientRead), e);
    OnRemoteReadsNoClient(x, e);
    hide Mid, Armed, OnRemote, Plan;
  }

  lemma ConnectReadsNoClient(x: State, connectError: bool, here: SockAddr)
    ensures Connect(x, connectError, here).h.clientRead == x.h.clientRead
  {
  }

  lemma FlushRemoteReadsNoClient(x: State, writes: seq<WriteOutcome>)
    ensures ShutRemote(FlushRemote(x, writes)).h.clientRead == x.h.clientRead
  {
    hide Flush;
  }

  lemma OnRemoteReadsNoClient(x: State, e: RemoteEvent)
    ensures OnRemote(x, e).h.clientRead == x.h.clientRead
  {
    var a := if e.readable then ReadRemote(x, e.script) else x;
    ReadRemoteTouches(x, e.script);
    ConnectReadsNoClient(a, e.connectError, e.here);
    FlushRemoteReadsNoClient(Connect(a, e.connectError, e.here), e.writes);
    hide ReadRemote, Connect, FlushRemote, ShutRemote, Rearm;
  }

  lemma WriteClientReadsNothing(x: State, writes: seq<WriteOutcome>)
    ensures WriteClient(x, writes).h.clientRead == x.h.clientRead
  {
  }

  lemma BothDoneKeeps(env: Env, x: State, p: Hs)
    requires Mid(env, x, p)
    ensures Mid(env, BothDone(x), p) && BothDone(x).h.clientRead == x.h.clientRead
  {
    if x.s.remoteEof { BlameKeeps(env, x, p, BothClosed); }
    hide Mid;
  }

  lemma ShakeAdvances(env: Env, x: State, bytes: seq<Byte>, more: seq<Byte>, token: nat)
    requires Mid(env, x, More(Plan(env, bytes), more))
    ensures Mid(env, Shake(env, x, token), Plan(env, bytes + more))
  {
    hide InOrder, Same, Fresh, Shake, Plan, More;
    ShakeStands(env, x, token);
    assert Fresh(env, Stand(x)) by { InOrderIsFresh(env, x); }
    PlanAdvances(env, bytes, more, Stand(x));
  }

  lemma InOrderIsFresh(env: Env, x: State)
    requires InOrder(env, x)
    ensures Fresh(env, Stand(x))
  {
  }

  lemma OnClientKeeps(env: Env, x: State, e: ClientEvent, token: nat)
    requires Valid(env, x)
    ensures Valid(env, OnClient(env, x, e, token))
    ensures OnClient(env, x, e, token).h.clientRead ==
            x.h.clientRead + if e.readable then DataOf(x.s.clientEof, e.script) else []
  {
    var p := Plan(env, x.h.clientRead);
    var more := if e.readable then DataOf(x.s.clientEof, e.script) else [];
    var a := if e.readable then ReadClient(x, e.script) else x;
    var b := if e.writable then WriteClient(a, e.writes) else a;
    var c := Shake(env, b, token);
    ReadClientKeeps(env, x, p, e.script);
    ReadClientReads(x, e.script);
    MoreTwice(p, [], []);
    assert x.h.clientRead + [] == x.h.clientRead;
    assert Mid(env, a, More(p, more)) && a.h.clientRead == x.h.clientRead + more;
    hide Mid, Armed, Plan, More, ReadClient, WriteClient, Shake, BothDone, Rearm, DataOf;
    WriteClientKeeps(env, a, More(p, more), e.writes);
    WriteClientReadsNothing(a, e.writes);
    MidInOrder(env, b, More(p, more));
    ShakeStands(env, b, token);
    ShakeAdvances(env, b, x.h.clientRead, more, token);
    BothDoneKeeps(env, c, Plan(env, x.h.clientRead + more));
    RearmKeeps(env, BothDone(c), Plan(env, x.h.clientRead + more));
  }

  lemma MidInOrder(env: Env, x: State, p: Hs)
    requires Mid(env, x, p)
    ensures InOrder(env, x)
  {
  }

  // ---------------------------------------------------------------- whole runs

  datatype Event = FromRemote(remote: RemoteEvent) | FromClient(client: ClientEvent, token: nat)

  /** A session without a remote socket has no remote events. */
  function OnEvent(env: Env, x: State, e: Event): State {
    match e
    case FromRemote(r) => if x.s.Remote() then OnRemote(x, r) else x
    case FromClient(c, token) => OnClient(env, x, c, token)
  }

  function RunEvents(env: Env, events: seq<Event>): State {
    if events == [] then START else OnEvent(env, RunEvents(env, events[..|events| - 1]), events[|events| - 1])
  }

  lemma OnEventKeeps(env: Env, x: State, e: Event)
    requires Valid(env, x)
    ensures Valid(env, OnEvent(env, x, e))
  {
    hide Valid, OnClient, OnRemote;
    match e
    case FromRemote(r) => if x.s.Remote() { OnRemoteKeeps(env, x, r); }
    case FromClient(c, token) => OnClientKeeps(env, x, c, token);
  }

  lemma {:induction false} RunIsValid(env: Env, events: seq<Event>)
    ensures Valid(env, RunEvents(env, events))
  {
    hide Valid, OnEvent;
    if events == [] {
      NewSessionIsValid(env);
    } else {
      RunIsValid(env, events[..|events| - 1]);
      OnEventKeeps(env, RunEvents(env, events[..|events| - 1]), events[|events| - 1]);
    }
  }

  /** Upstream conservation: while connecting and in relay, what the remote took, then what is queued
      for it, then what is still in the client's buffer, is the plan's content of all the client's
      bytes: each once and in order. In relay the buffer is empty and the counter is exact. */
  lemma UpstreamConservation(env: Env, events: seq<Event>)
    ensures var x := RunEvents(env, events);
            var p := Plan(env, x.h.clientRead);
            x.s.phase == Connecting || x.s.phase == Relay ==>
              && p.phase == Connecting && x.s.target == p.target && x.s.protocol == p.protocol
              && x.h.remoteSent + Pending(x.s.c2r) + x.s.clientIn == Content(p)
              && (x.s.phase == Relay ==> x.s.clientIn == [] && x.s.up == |x.h.remoteSent| + |Pending(x.s.c2r)|)
  {
    RunIsValid(env, events);
    hide RunEvents, Plan, Fresh, DownstreamOk, Pending;
  }

  /** What was queued for the client so far, in order. */
  ghost function Told(x: State): seq<Byte> { x.h.clientSent + Pending(x.s.r2c) }

  /** Downstream order: what the client was sent and what is queued for it is the plan's replies, the
      bytes read from the remote while connecting, the verdict on the connection, and the bytes read
      since; the counter counts the remote's bytes alone. */
  lemma DownstreamOrder(env: Env, events: seq<Event>)
    ensures var x := RunEvents(env, events);
            && Told(x) == Plan(env, x.h.clientRead).replies + x.h.early + x.h.verdict + x.h.late
            && x.s.down == |x.h.RemoteRead()|
            && (x.s.phase == Relay ==> x.h.verdict == SuccessReply(x.s.protocol, x.h.local))
  {
    RunIsValid(env, events);
    hide RunEvents, Plan, Fresh, Pending, SuccessReply, FailureReply;
  }

  /** Wake-ups: after every event a socket is watched for writing exactly when there is something to
      write to it (or a connection to be made), and for reading until its end of stream. A session
      that is closing, or whose remote has ended, has something to flush or is listed for closing. */
  lemma NothingIsStuck(env: Env, events: seq<Event>)
    ensures var x := RunEvents(env, events);
            && (x.s.clientInterest.writable <==> Pending(x.s.r2c) != [])
            && (x.s.clientInterest.readable <==> !x.s.clientEof || Pending(x.s.r2c) == [])
            && (x.s.Remote() ==> (x.s.remoteInterest.writable <==> x.s.phase == Connecting || Pending(x.s.c2r) != []))
            && (x.s.Remote() ==>
                 (x.s.remoteInterest.readable <==>
                   !x.s.remoteEof || (x.s.phase != Connecting && Pending(x.s.c2r) == [])))
            && (x.s.phase == Closing || x.s.remoteEof ==> Pending(x.s.r2c) != [] || x.h.queued)
  {
    RunIsValid(env, events);
    var x := RunEvents(env, events);
    EmptyPending(x.s.r2c);
    EmptyPending(x.s.c2r);
    hide RunEvents, Plan, Fresh, Pending;
  }
}
