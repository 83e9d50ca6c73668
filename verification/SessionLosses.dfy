/** What can get lost or out of order while a connection is being made, and exactly when: the client's
    bytes cut off by its end of stream, the reply dropped because the remote ended first, the remote's
    bytes ahead of the reply. Each condition is on the session and the event before it is served. */
module SessionLosses {
  import opened Bytes
  import opened Oracles
  import opened HttpRewrite
  import opened Socks5Codec
  import opened Handshake
  import opened OffsetQueue
  import opened SessionModel
  import opened SessionRuns
  import opened SessionCorners

  // ---------------------------------------------------------------- what the read loops do

  /** The bytes an event reads from the remote. */
  function RemoteData(x: State,
                      r: RemoteEvent): seq<Byte> { if r.readable then DataOf(x.s.remoteEof, r.script) else [] }

  /** Why the session would end once they are read. */
  function WhyAfterReading(x: State, r: RemoteEvent): Option<Why> {
    if !r.readable then x.s.closeReason else
      match EndOf(x.s.remoteEof, r.script)
      case ReadFail => Some(RemoteReadError)
      case Eof => if x.s.r2c == [] && RemoteData(x, r) == [] then Some(RemoteClosed) else x.s.closeReason
      case _ => x.s.closeReason
  }

  function AfterReading(x: State, r: RemoteEvent): State { if r.readable then ReadRemote(x, r.script) else x }

  lemma {:induction false} ReadRemoteEnds(x: State, script: seq<ReadOutcome>)
    ensures var y, r := ReadRemote(x, script), RemoteEvent(true, script, false, false, UNSPECIFIED, []);
            && (y.s.r2c == [] <==> x.s.r2c == [] && RemoteData(x, r) == [])
            && y.s.closeReason == WhyAfterReading(x, r)
    decreases |script|
  {
    if script != [] && Kernel(x.s.remoteEof, script[0]).Data? {
      ReadRemoteEnds(TakeRemote(x, script[0]), script[1..]);
    }
  }

  /** The bytes read count as early or late by the phase they are read in. */
  ghost predicate Grew(x: State, y: State, b: seq<Byte>) {
    && y.s.phase == x.s.phase
    && y.h.early == (if x.s.phase == Connecting then x.h.early + b else x.h.early)
    && y.h.late == (if x.s.phase == Connecting then x.h.late else x.h.late + b)
  }

  lemma GrewTwice(x: State, y: State, z: State, b: seq<Byte>, c: seq<Byte>)
    requires Grew(x, y, b) && Grew(y, z, c)
    ensures Grew(x, z, b + c)
  {
    Regrouped(x.h.early, b, c);
    Regrouped(x.h.late, b, c);
  }

  lemma Regrouped(a: seq<Byte>, b: seq<Byte>, c: seq<Byte>)
    ensures a + b + c == a + (b + c)
  {
  }

  lemma TakeRemoteGrows(x: State, outcome: ReadOutcome)
    ensures Grew(x, TakeRemote(x, outcome), DataIn(outcome)) && Grew(x, x, [])
    ensures outcome.Data? ==> TakeRemote(x, outcome).s.remoteEof == x.s.remoteEof
  {
  }

  lemma {:induction false} ReadRemoteGrows(x: State, script: seq<ReadOutcome>)
    ensures Grew(x, ReadRemote(x, script), DataOf(x.s.remoteEof, script))
    decreases |script|
  {
    hide TakeRemote, Grew;
    var outcome := if script == [] then ReadBlock else Kernel(x.s.remoteEof, script[0]);
    TakeRemoteGrows(x, outcome);
    if outcome.Data? {
      var y, rest := TakeRemote(x, outcome), DataOf(x.s.remoteEof, script[1..]);
      ReadRemoteGrows(y, script[1..]);
      GrewTwice(x, y, ReadRemote(y, script[1..]), outcome.bytes, rest);
    }
  }

  lemma AfterReadingTouches(x: State, r: RemoteEvent)
    ensures var a := AfterReading(x, r);
            && ReadsRemoteOnly(x, a)
            && (a.s.r2c == [] <==> x.s.r2c == [] && RemoteData(x, r) == [])
            && a.s.closeReason == WhyAfterReading(x, r)
  {
    hide ReadRemote;
    ReadRemoteTouches(x, r.script);
    ReadRemoteEnds(x, r.script);
  }

  /** The bytes an event reads from the client. */
  function ClientData(x: State,
                      c: ClientEvent): seq<Byte> { if c.readable then DataOf(x.s.clientEof, c.script) else [] }

  predicate ClientEnds(x: State, c: ClientEvent) { c.readable && EndOf(x.s.clientEof, c.script).Eof? }

  /** What a read loop does to the upstream side of a session with a remote. */
  ghost predicate ReadsOn(x: State, y: State, b: seq<Byte>, ends: bool) {
    && y.s.remoteToken == x.s.remoteToken && y.s.phase == x.s.phase
    && y.s.clientIn == (if x.s.phase == Relay then x.s.clientIn else x.s.clientIn + b)
    && (y.s.c2r == [] <==> x.s.c2r == [] && (x.s.phase == Relay ==> b == []))
    && (y.s.remoteWriteShutdown <==> x.s.remoteWriteShutdown || (ends && y.s.c2r == []))
  }

  lemma TakeClientDoes(x: State, outcome: ReadOutcome)
    requires x.s.Remote() && outcome == Kernel(x.s.clientEof, outcome)
    ensures ReadsOn(x, TakeClient(x, outcome), DataIn(outcome), outcome.Eof?)
    ensures TakeClient(x, ReadBlock) == x
  {
  }

  lemma ReadsOnTwice(x: State, y: State, z: State, b: seq<Byte>, c: seq<Byte>, ends: bool)
    requires ReadsOn(x, y, b, false) && ReadsOn(y, z, c, ends)
    ensures ReadsOn(x, z, b + c, ends)
  {
    Regrouped(x.s.clientIn, b, c);
    assert |b + c| == |b| + |c|;
  }

  lemma {:induction false} ReadClientDoes(x: State, script: seq<ReadOutcome>)
    requires x.s.Remote()
    ensures ReadsOn(x, ReadClient(x, script), DataOf(x.s.clientEof, script), EndOf(x.s.clientEof, script).Eof?)
    decreases |script|
  {
    hide TakeClient, ReadsOn;
    TakeClientDoes(x, ReadBlock);
    if script != [] {
      var outcome := Kernel(x.s.clientEof, script[0]);
      TakeClientDoes(x, outcome);
      if outcome.Data? {
        var y, rest := TakeClient(x, outcome), DataOf(x.s.clientEof, script[1..]);
        DataIsNotTheEnd(x, outcome.bytes);
        StillRemote(x, y, outcome.bytes);
        ReadClientDoes(y, script[1..]);
        ReadsOnTwice(x, y, ReadClient(y, script[1..]), outcome.bytes, rest, EndOf(y.s.clientEof, script[1..]).Eof?);
      }
    }
  }

  lemma StillRemote(x: State, y: State, b: seq<Byte>)
    requires ReadsOn(x, y, b, false)
    ensures y.s.Remote() == x.s.Remote()
  {
  }

  lemma LatePhaseRests(env: Env, x: State, token: nat)
    requires x.s.phase == Connecting || x.s.phase == Relay || x.s.phase == Closing
    ensures Shake(env, x, token) == x
  {
    hide ParseHttp, ParseTarget;
    assert ShakeStep(env, x, token) == x;
  }

  lemma RemoteIsLate(env: Env, x: State)
    requires Valid(env, x) && x.s.Remote()
    ensures x.s.phase == Connecting || x.s.phase == Relay || x.s.phase == Closing
    ensures x.s.remoteWriteShutdown ==> x.s.clientEof
    ensures x.s.phase == Relay ==> x.s.clientIn == []
  {
  }

  /** An event on the client of a session with a remote is reading and writing alone. */
  lemma ClientOfRemote(env: Env, x: State, c: ClientEvent, token: nat)
    requires Valid(env, x) && x.s.Remote()
    ensures var a := if c.readable then ReadClient(x, c.script) else x;
            var b := BothDone(if c.writable then WriteClient(a, c.writes) else a);
            OnClient(env, x, c, token) == b.(s := Rearm(b.s))
  {
    hide ReadClient, WriteClient, Shake, Valid, BothDone, Rearm;
    RemoteIsLate(env, x);
    var a := if c.readable then ReadClient(x, c.script) else x;
    ReadClientKeepsPhase(x, c.script);
    WriteClientKeepsPhase(a, c.writes);
    LatePhaseRests(env, if c.writable then WriteClient(a, c.writes) else a, token);
  }

  /** A session without a remote gets none of its half-close from an event on its client, nor an end of
      stream of its remote. */
  lemma ClientWithoutRemote(env: Env, x: State, c: ClientEvent, token: nat)
    requires Valid(env, x) && !x.s.Remote()
    ensures var y := OnClient(env, x, c, token);
            !y.s.remoteWriteShutdown && !y.s.remoteEof
  {
    assert !x.s.remoteWriteShutdown && !x.s.remoteEof && x.s.phase != Relay;
    hide ReadClient, WriteClient, Shake, Fresh, UpstreamOk, DownstreamOk, Valid;
    var a := if c.readable then ReadClient(x, c.script) else x;
    ReadClientKeepsPhase(x, c.script);
    ReadClientWithoutRemote(x, c.script);
    WriteClientKeepsPhase(a, c.writes);
    WriteClientTouches(a, c.writes);
    ShakeTraffic(env, if c.writable then WriteClient(a, c.writes) else a, token);
  }

  lemma {:induction false} ReadClientWithoutRemote(x: State, script: seq<ReadOutcome>)
    requires !x.s.Remote() && !x.s.remoteWriteShutdown && !x.s.remoteEof
    ensures var y := ReadClient(x, script);
            !y.s.remoteWriteShutdown && !y.s.remoteEof
    decreases |script|
  {
    hide Kernel;
    if script != [] && Kernel(x.s.clientEof, script[0]).Data? {
      ReadClientWithoutRemote(TakeClient(x, Kernel(x.s.clientEof, script[0])), script[1..]);
    }
  }

  lemma WriteClientTouches(x: State, writes: seq<WriteOutcome>)
    ensures var y := WriteClient(x, writes);
            && y.s.clientIn == x.s.clientIn && y.s.c2r == x.s.c2r && y.s.remoteEof == x.s.remoteEof
            && y.s.remoteWriteShutdown == x.s.remoteWriteShutdown && y.s.clientEof == x.s.clientEof
  {
    hide Flush;
  }

  // ---------------------------------------------------------------- the client's bytes cut off

  /** Once the remote's write half is shut, it has been sent all the client's content. */
  ghost predicate Completed(env: Env, x: State) {
    x.s.remoteWriteShutdown ==> x.h.remoteSent == Content(Plan(env, x.h.clientRead))
  }

  /** The events that shut the write half with bytes unsent: the end of the client's stream is read
      outside relay with nothing queued for the remote, while there are bytes of the client in its
      buffer, or read together with it; or it was read before, and the connection has failed. */
  predicate CutsOff(x: State, e: Event) {
    && x.s.Remote() && !x.s.remoteWriteShutdown && x.s.phase != Relay && x.s.c2r == []
    && match e
       case FromClient(c, _) => ClientEnds(x, c) && x.s.clientIn + ClientData(x, c) != []
       case FromRemote(r) =>
         r.writable && (x.s.phase == Connecting ==> r.connectError) && x.s.clientEof && x.s.clientIn != []
  }

  /** Nothing of the client's is left behind a shut write half. */
  predicate NoneLeft(x: State) { x.s.remoteWriteShutdown ==> x.s.c2r == [] && x.s.clientIn == [] }

  lemma NoneLeftIsCompleted(env: Env, x: State)
    requires Valid(env, x)
    ensures NoneLeft(x) <==> Completed(env, x)
  {
    EmptyPending(x.s.c2r);
    assert x.s.remoteWriteShutdown ==> x.s.Remote();
    var sent, queued, left := x.h.remoteSent, Pending(x.s.c2r), x.s.clientIn;
    assert Content(Stand(x)) == sent + queued + left;
    assert |sent + queued + left| == |sent| + |queued| + |left|;
    assert queued == [] && left == [] ==> sent + queued + left == sent;
    hide Plan, Fresh, DownstreamOk, Pending;
  }

  lemma ReadingCutsOff(x: State, c: ClientEvent)
    requires NoneLeft(x) && x.s.Remote() && (x.s.phase == Relay ==> x.s.clientIn == [])
    requires x.s.remoteWriteShutdown ==> x.s.clientEof
    ensures var a := if c.readable then ReadClient(x, c.script) else x;
            NoneLeft(a) <==> !CutsOff(x, FromClient(c, 0))
  {
    ReadClientDoes(x, c.script);
    var b := DataOf(x.s.clientEof, c.script);
    assert |x.s.clientIn + b| == |x.s.clientIn| + |b|;
    assert x.s.remoteWriteShutdown ==> b == [];
    hide ReadClient, DataOf, EndOf;
  }

  lemma ClientCutsOff(env: Env, x: State, c: ClientEvent, token: nat)
    requires Valid(env, x) && NoneLeft(x)
    ensures NoneLeft(OnClient(env, x, c, token)) <==> !CutsOff(x, FromClient(c, token))
  {
    hide OnClient, ReadClient, WriteClient, Valid;
    if x.s.Remote() {
      ClientOfRemote(env, x, c, token);
      RemoteIsLate(env, x);
      ReadingCutsOff(x, c);
      var a := if c.readable then ReadClient(x, c.script) else x;
      WriteClientTouches(a, c.writes);
    } else {
      ClientWithoutRemote(env, x, c, token);
    }
  }

  lemma ShutLeavesNone(c: State, writes: seq<WriteOutcome>)
    requires NoneLeft(c) && c.s.Remote() && (c.s.phase == Relay ==> c.s.clientIn == [])
    ensures var y := ShutRemote(FlushRemote(c, writes));
            NoneLeft(y) <==> c.s.remoteWriteShutdown || !c.s.clientEof || c.s.clientIn == [] || y.s.c2r != []
    ensures c.s.phase != Relay ==> ShutRemote(FlushRemote(c, writes)).s.c2r == c.s.c2r
  {
    hide Flush;
  }

  lemma ConnectLeavesNone(a: State, connectError: bool, here: SockAddr)
    requires NoneLeft(a) && a.s.Remote() && (a.s.phase == Relay ==> a.s.clientIn == [])
    ensures var c := Connect(a, connectError, here);
            && NoneLeft(c) && c.s.Remote() && (c.s.phase == Relay ==> c.s.clientIn == [])
            && (c.s.phase == Relay <==> a.s.phase == Relay || (a.s.phase == Connecting && !connectError))
            && (c.s.phase != Relay ==> c.s.clientIn == a.s.clientIn && c.s.c2r == a.s.c2r)
            && c.s.remoteWriteShutdown == a.s.remoteWriteShutdown && c.s.clientEof == a.s.clientEof
  {
    hide SuccessReply, FailureReply;
  }

  lemma ReadingRemoteCutsNone(x: State, a: State, r: RemoteEvent)
    requires ReadsRemoteOnly(x, a)
    ensures CutsOff(x, FromRemote(r)) == CutsOff(a, FromRemote(r)) && NoneLeft(x) == NoneLeft(a)
    ensures a.s.remoteToken == x.s.remoteToken && a.s.phase == x.s.phase && a.s.clientIn == x.s.clientIn
  {
  }

  lemma ConnectedCutsOff(a: State, r: RemoteEvent)
    requires NoneLeft(a) && a.s.Remote() && (a.s.phase == Relay ==> a.s.clientIn == [])
    ensures var y := if r.writable then ShutRemote(FlushRemote(Connect(a, r.connectError, r.here), r.writes)) else a;
            NoneLeft(y) <==> !CutsOff(a, FromRemote(r))
  {
    hide Connect, FlushRemote, ShutRemote;
    ConnectLeavesNone(a, r.connectError, r.here);
    ShutLeavesNone(Connect(a, r.connectError, r.here), r.writes);
  }

  lemma RemoteCutsOff(env: Env, x: State, r: RemoteEvent)
    requires Valid(env, x) && NoneLeft(x) && x.s.Remote()
    ensures NoneLeft(OnRemote(x, r)) <==> !CutsOff(x, FromRemote(r))
  {
    hide Valid, Connect, FlushRemote, ShutRemote, ReadRemote, ReadsRemoteOnly, CutsOff;
    RemoteIsLate(env, x);
    AfterReadingTouches(x, r);
    ReadingRemoteCutsNone(x, AfterReading(x, r), r);
    ConnectedCutsOff(AfterReading(x, r), r);
  }

  /** One event: if all was complete before it, it still is, exactly when the event does not cut off. */
  lemma CompletedUnlessCut(env: Env, x: State, e: Event)
    requires Valid(env, x) && Completed(env, x)
    ensures Completed(env, OnEvent(env, x, e)) <==> !CutsOff(x, e)
  {
    NoneLeftIsCompleted(env, x);
    OnEventKeeps(env, x, e);
    NoneLeftIsCompleted(env, OnEvent(env, x, e));
    hide Valid, NoneLeft, Completed, OnClient, OnRemote;
    match e
    case FromRemote(r) => if x.s.Remote() { RemoteCutsOff(env, x, r); }
    case FromClient(c, token) => ClientCutsOff(env, x, c, token);
  }

  /** Where a run stands after its first k events. */
  function After(env: Env, events: seq<Event>, k: nat): State
    requires k <= |events|
  {
    RunEvents(env, events[..k])
  }

  lemma AfterNext(env: Env, events: seq<Event>, k: nat)
    requires k < |events|
    ensures After(env, events, k + 1) == OnEvent(env, After(env, events, k), events[k])
    ensures Valid(env, After(env, events, k))
  {
    hide Valid, OnEvent;
    assert events[..k + 1][..k] == events[..k];
    RunIsValid(env, events[..k]);
  }

  lemma {:induction false} UncutIsCompleted(env: Env, events: seq<Event>, n: nat)
    requires n <= |events| && forall k :: 0 <= k < n ==> !CutsOff(After(env, events, k), events[k])
    ensures Completed(env, After(env, events, n))
  {
    if n > 0 {
      hide After, Valid, CutsOff, OnEvent, Completed;
      UncutIsCompleted(env, events, n - 1);
      AfterNext(env, events, n - 1);
      CompletedUnlessCut(env, After(env, events, n - 1), events[n - 1]);
    }
  }

  /** Half-close upstream: all along a run, whenever the remote's write half is shut the remote has been
      sent all the client's content, exactly when no event of the run cuts off; and it is shut only
      after the end of the client's stream. */
  lemma UpstreamHalfClose(env: Env, events: seq<Event>)
    ensures (forall k :: 0 <= k <= |events| ==> Completed(env, After(env, events, k)))
       <==> (forall k :: 0 <= k < |events| ==> !CutsOff(After(env, events, k), events[k]))
    ensures RunEvents(env, events).s.remoteWriteShutdown ==> RunEvents(env, events).s.clientEof
  {
    hide After, Valid, CutsOff, OnEvent, Completed;
    if forall k :: 0 <= k <= |events| ==> Completed(env, After(env, events, k)) {
      forall k | 0 <= k < |events| ensures !CutsOff(After(env, events, k), events[k]) {
        assert Completed(env, After(env, events, k)) && Completed(env, After(env, events, k + 1));
        AfterNext(env, events, k);
        CompletedUnlessCut(env, After(env, events, k), events[k]);
      }
    }
    if forall k :: 0 <= k < |events| ==> !CutsOff(After(env, events, k), events[k]) {
      forall n | 0 <= n <= |events| ensures Completed(env, After(env, events, n)) { UncutIsCompleted(env, events, n); }
    }
    ShutAfterEnd(env, events);
  }

  lemma ShutAfterEnd(env: Env, events: seq<Event>)
    ensures RunEvents(env, events).s.remoteWriteShutdown ==> RunEvents(env, events).s.clientEof
  {
    RunIsValid(env, events);
    hide RunEvents, Plan, Fresh, UpstreamOk, DownstreamOk;
  }

  // ---------------------------------------------------------------- the reply dropped

  /** A session is listed as closed by its remote only with nothing left to deliver to its client. */
  predicate Delivered(x: State) { x.s.closeReason == Some(RemoteClosed) ==> x.s.r2c == [] }

  /** The one event that breaks this: the remote's connection is made, its end of stream is known with
      nothing queued for the client and no bytes read with it, and the protocol has a reply to queue
      (unless writing to the remote then fails, which is the reason given instead). */
  predicate DropsReply(x: State, e: Event) {
    && x.s.Remote() && x.s.phase == Connecting && (x.s.protocol == Socks5 || x.s.protocol == HttpTunnel)
    && e.FromRemote? && e.remote.writable && !e.remote.connectError
    && WhyAfterReading(x, e.remote) == Some(RemoteClosed)
    && Flush(PassOn(x).s.c2r, e.remote.writes).ok
  }

  lemma RemoteClosedIsEmpty(env: Env, x: State, r: RemoteEvent)
    requires Valid(env, x) && Delivered(x)
    ensures Delivered(AfterReading(x, r)) && x.s.protocol == AfterReading(x, r).s.protocol
    ensures x.s.Remote() ==> x.s.protocol != Unknown
  {
    AfterReadingTouches(x, r);
    assert x.s.closeReason == Some(RemoteClosed) ==> x.s.remoteEof && RemoteData(x, r) == [];
    assert x.s.Remote() ==> Stand(x).protocol != Unknown;
    hide AfterReading, Plan, Pending, DownstreamOk, UpstreamOk;
  }

  lemma WhoIsAnswered(protocol: Protocol, here: SockAddr)
    ensures SuccessReply(protocol, here) == [] <==> protocol == HttpForward || protocol == Unknown
  {
    assert EncodeReply(REP_SUCCEEDED, here)[0] == VERSION;
    assert ESTABLISHED != [];
    hide EncodeReply;
  }

  lemma ConnectDelivers(a: State, connectError: bool, here: SockAddr)
    requires Delivered(a) && a.s.protocol != Unknown
    ensures var c := Connect(a, connectError, here);
            && (Delivered(c) <==> a.s.phase != Connecting || connectError || a.s.protocol == HttpForward
                                  || a.s.closeReason != Some(RemoteClosed))
            && (a.s.phase == Connecting && !connectError ==>
                 c.s.phase == Relay && c.s.c2r == PassOn(a).s.c2r && c.s.closeReason == a.s.closeReason)
  {
    hide SuccessReply, FailureReply;
    WhoIsAnswered(a.s.protocol, here);
  }

  lemma FlushDelivers(c: State, writes: seq<WriteOutcome>)
    ensures var y := ShutRemote(FlushRemote(c, writes));
            Delivered(y) <==> Delivered(c) || (c.s.phase == Relay && !Flush(c.s.c2r, writes).ok)
  {
  }

  lemma ReadingDropsNone(x: State, a: State, r: RemoteEvent)
    requires ReadsRemoteOnly(x, a)
    ensures a.s.phase == x.s.phase && a.s.protocol == x.s.protocol && PassOn(a).s.c2r == PassOn(x).s.c2r
  {
  }

  lemma RemoteDrops(env: Env, x: State, r: RemoteEvent)
    requires Valid(env, x) && Delivered(x) && x.s.Remote()
    ensures Delivered(OnRemote(x, r)) <==> !DropsReply(x, FromRemote(r))
  {
    hide Valid, Connect, FlushRemote, ShutRemote, ReadRemote, ReadsRemoteOnly, Flush, WhyAfterReading, PassOn;
    AfterReadingTouches(x, r);
    RemoteClosedIsEmpty(env, x, r);
    var a := AfterReading(x, r);
    ReadingDropsNone(x, a, r);
    ConnectDelivers(a, r.connectError, r.here);
    FlushDelivers(Connect(a, r.connectError, r.here), r.writes);
  }

  lemma {:induction false} ReadClientDelivers(x: State, script: seq<ReadOutcome>)
    requires Delivered(x)
    ensures Delivered(ReadClient(x, script))
    decreases |script|
  {
    hide Kernel;
    if script != [] && Kernel(x.s.clientEof, script[0]).Data? {
      ReadClientDelivers(TakeClient(x, Kernel(x.s.clientEof, script[0])), script[1..]);
    }
  }

  lemma WriteClientDelivers(x: State, writes: seq<WriteOutcome>)
    requires Delivered(x)
    ensures Delivered(WriteClient(x, writes))
  {
  }

  lemma ClientDelivers(env: Env, x: State, c: ClientEvent, token: nat)
    requires Valid(env, x) && Delivered(x)
    ensures Delivered(OnClient(env, x, c, token))
  {
    hide OnClient, ReadClient, WriteClient, Valid;
    if x.s.Remote() {
      ClientOfRemote(env, x, c, token);
      ReadClientDelivers(x, c.script);
      WriteClientDelivers(if c.readable then ReadClient(x, c.script) else x, c.writes);
    } else {
      ClientWithoutRemote(env, x, c, token);
      OnClientKeeps(env, x, c, token);
      ClosedMeansEnded(env, OnClient(env, x, c, token));
    }
  }

  lemma ClosedMeansEnded(env: Env, x: State)
    requires Valid(env, x)
    ensures x.s.closeReason == Some(RemoteClosed) ==> x.s.remoteEof && x.h.queued
  {
  }

  /** One event: it leaves a reply behind a session listed as closed by its remote exactly when it drops
      that reply. */
  lemma DeliveredUnlessDropped(env: Env, x: State, e: Event)
    requires Valid(env, x) && Delivered(x)
    ensures Delivered(OnEvent(env, x, e)) <==> !DropsReply(x, e)
  {
    hide Valid, Delivered, OnClient, OnRemote;
    match e
    case FromRemote(r) => if x.s.Remote() { RemoteDrops(env, x, r); }
    case FromClient(c, token) => ClientDelivers(env, x, c, token);
  }

  lemma {:induction false} UndroppedIsDelivered(env: Env, events: seq<Event>, n: nat)
    requires n <= |events| && forall k :: 0 <= k < n ==> !DropsReply(After(env, events, k), events[k])
    ensures Delivered(After(env, events, n))
  {
    if n > 0 {
      hide After, Valid, DropsReply, OnEvent, Delivered;
      UndroppedIsDelivered(env, events, n - 1);
      AfterNext(env, events, n - 1);
      DeliveredUnlessDropped(env, After(env, events, n - 1), events[n - 1]);
    }
  }

  /** All along a run, a session listed as closed by its remote has delivered everything it was to tell
      its client, exactly when no event of the run drops a reply. */
  lemma RemoteClosedAfterDelivery(env: Env, events: seq<Event>)
    ensures (forall k :: 0 <= k <= |events| ==> Delivered(After(env, events, k)))
       <==> (forall k :: 0 <= k < |events| ==> !DropsReply(After(env, events, k), events[k]))
    ensures var x := RunEvents(env, events);
            x.s.closeReason == Some(RemoteClosed) ==>
              && x.s.remoteEof && x.h.queued
              && (Delivered(x) <==>
                   x.h.clientSent == Plan(env, x.h.clientRead).replies + x.h.early + x.h.verdict + x.h.late)
  {
    hide After, Valid, DropsReply, OnEvent, Delivered;
    if forall k :: 0 <= k <= |events| ==> Delivered(After(env, events, k)) {
      forall k | 0 <= k < |events| ensures !DropsReply(After(env, events, k), events[k]) {
        assert Delivered(After(env, events, k)) && Delivered(After(env, events, k + 1));
        AfterNext(env, events, k);
        DeliveredUnlessDropped(env, After(env, events, k), events[k]);
      }
    }
    if forall k :: 0 <= k < |events| ==> !DropsReply(After(env, events, k), events[k]) {
      forall n | 0 <= n <= |events| ensures Delivered(After(env, events, n)) { UndroppedIsDelivered(env, events, n); }
    }
    AllTold(env, events);
  }

  lemma AllTold(env: Env, events: seq<Event>)
    ensures var x := RunEvents(env, events);
            x.s.closeReason == Some(RemoteClosed) ==>
              && x.s.remoteEof && x.h.queued
              && (Delivered(x) <==>
                   x.h.clientSent == Plan(env, x.h.clientRead).replies + x.h.early + x.h.verdict + x.h.late)
  {
    RunIsValid(env, events);
    DownstreamOrder(env, events);
    hide RunEvents, Plan, Fresh, UpstreamOk, Pending;
    var x := RunEvents(env, events);
    EmptyPending(x.s.r2c);
    assert |Told(x)| == |x.h.clientSent| + |Pending(x.s.r2c)|;
    assert x.h.clientSent + [] == x.h.clientSent;
  }

  // ---------------------------------------------------------------- content left behind a session that is listed

  /** A session is listed for closing because a stream has ended, with content of its client unsent. */
  ghost predicate Abandoned(env: Env, x: State) {
    x.s.Remote() && ByEnd(x.s.closeReason) && x.h.remoteSent != Content(Plan(env, x.h.clientRead))
  }

  /** Why a session with a remote ends once an event on it is served. */
  function WhyAfterRemote(x: State, r: RemoteEvent): Option<Why> {
    if !r.writable then WhyAfterReading(x, r)
    else if x.s.phase == Connecting && r.connectError then Some(ConnectFailed)
    else if x.s.phase != Closing && !Flush(PassOn(x).s.c2r, r.writes).ok then Some(RemoteWriteError)
    else WhyAfterReading(x, r)
  }

  /** Whether it then has content of the client unsent. */
  predicate LeftByRemote(x: State, r: RemoteEvent) {
    if r.writable && x.s.phase != Closing && !(x.s.phase == Connecting && r.connectError)
    then Flush(PassOn(x).s.c2r, r.writes).queue != []
    else x.s.c2r != [] || x.s.clientIn != []
  }

  /** The same for an event on its client. */
  function WhyAfterClient(x: State, c: ClientEvent): Option<Why> {
    var end := if c.readable then EndOf(x.s.clientEof, c.script) else ReadBlock;
    var f := Flush(x.s.r2c, c.writes);
    var r2c := if c.writable then f.queue else x.s.r2c;
    var read :=
      if end.ReadFail? then Some(ClientReadError)
      else if end.Eof? && x.s.remoteEof && x.s.r2c == [] then Some(ClientClosed)
      else x.s.closeReason;
    if (x.s.clientEof || end.Eof?) && x.s.remoteEof && r2c == [] && x.s.c2r == []
       && (x.s.phase == Relay ==> ClientData(x, c) == [])
    then Some(BothClosed)
    else if c.writable && x.s.remoteEof && r2c == [] then Some(RemoteClosed)
    else if c.writable && !f.ok then Some(ClientWriteError)
    else read
  }

  predicate LeftByClient(x: State, c: ClientEvent) { x.s.c2r != [] || x.s.clientIn != [] || ClientData(x, c) != [] }

  /** The events after which a session is so listed. */
  predicate Abandons(x: State, e: Event) {
    && x.s.Remote()
    && match e
       case FromRemote(r) => ByEnd(WhyAfterRemote(x, r)) && LeftByRemote(x, r)
       case FromClient(c, _) => ByEnd(WhyAfterClient(x, c)) && LeftByClient(x, c)
  }

  lemma UnsentIsLeft(env: Env, x: State)
    requires Valid(env, x) && x.s.Remote()
    ensures x.h.remoteSent == Content(Plan(env, x.h.clientRead)) <==> x.s.c2r == [] && x.s.clientIn == []
  {
    EmptyPending(x.s.c2r);
    var sent, queued, left := x.h.remoteSent, Pending(x.s.c2r), x.s.clientIn;
    assert Content(Stand(x)) == sent + queued + left;
    assert |sent + queued + left| == |sent| + |queued| + |left|;
    assert queued == [] && left == [] ==> sent + queued + left == sent;
    hide Plan, Fresh, DownstreamOk, Pending;
  }

  lemma ConnectLeaves(a: State, connectError: bool, here: SockAddr)
    requires a.s.phase == Relay ==> a.s.clientIn == []
    ensures var c := Connect(a, connectError, here);
            && c.s.remoteToken == a.s.remoteToken
            && c.s.phase == (if a.s.phase != Connecting then a.s.phase else if connectError then Closing else Relay)
            && (c.s.phase == Relay ==> c.s.c2r == PassOn(a).s.c2r && c.s.clientIn == [])
            && (c.s.phase != Relay ==> c.s.c2r == a.s.c2r && c.s.clientIn == a.s.clientIn)
            && c.s.closeReason ==
                 if a.s.phase == Connecting && connectError then Some(ConnectFailed) else a.s.closeReason
  {
    hide SuccessReply, FailureReply;
  }

  lemma FlushLeaves(c: State, writes: seq<WriteOutcome>)
    ensures var y, f := ShutRemote(FlushRemote(c, writes)), Flush(c.s.c2r, writes);
            && y.s.remoteToken == c.s.remoteToken && y.s.clientIn == c.s.clientIn
            && y.s.c2r == (if c.s.phase == Relay then f.queue else c.s.c2r)
            && y.s.closeReason == if c.s.phase == Relay && !f.ok then Some(RemoteWriteError) else c.s.closeReason
  {
    assert c.s.c2r == [] ==> Flush(c.s.c2r, writes) == Flushed([], [], true);
    hide Flush;
  }

  lemma RemoteLeaves(env: Env, x: State, r: RemoteEvent)
    requires Valid(env, x) && x.s.Remote()
    ensures var y := OnRemote(x, r);
            && y.s.Remote() && y.s.closeReason == WhyAfterRemote(x, r)
            && (y.s.c2r != [] || y.s.clientIn != [] <==> LeftByRemote(x, r))
  {
    hide Valid, Connect, FlushRemote, ShutRemote, ReadRemote, Flush, WhyAfterReading;
    RemoteIsLate(env, x);
    AfterReadingTouches(x, r);
    var a := AfterReading(x, r);
    ConnectLeaves(a, r.connectError, r.here);
    FlushLeaves(Connect(a, r.connectError, r.here), r.writes);
  }

  lemma {:induction false} ReadClientWhy(x: State, script: seq<ReadOutcome>)
    ensures var y, end := ReadClient(x, script), EndOf(x.s.clientEof, script);
            && y.s.r2c == x.s.r2c && y.s.remoteEof == x.s.remoteEof
            && y.s.clientEof == (x.s.clientEof || end.Eof?)
            && y.s.closeReason ==
                 (if end.ReadFail? then Some(ClientReadError)
                  else if end.Eof? && x.s.remoteEof && x.s.r2c == [] then Some(ClientClosed)
                  else x.s.closeReason)
    decreases |script|
  {
    if script != [] && Kernel(x.s.clientEof, script[0]).Data? {
      DataIsNotTheEnd(x, script[0].bytes);
      ReadClientWhy(TakeClient(x, script[0]), script[1..]);
    }
  }

  lemma WriteClientWhy(a: State, writes: seq<WriteOutcome>)
    ensures var b, f := WriteClient(a, writes), Flush(a.s.r2c, writes);
            && b.s.r2c == f.queue
            && b.s.closeReason ==
                 (if f.queue == [] && a.s.remoteEof then Some(RemoteClosed)
                  else if f.ok then a.s.closeReason else Some(ClientWriteError))
  {
  }

  lemma ClientLeaves(env: Env, x: State, c: ClientEvent, token: nat)
    requires Valid(env, x) && x.s.Remote()
    ensures var y := OnClient(env, x, c, token);
            && y.s.Remote() && y.s.closeReason == WhyAfterClient(x, c)
            && (y.s.c2r != [] || y.s.clientIn != [] <==> LeftByClient(x, c))
  {
    hide OnClient, ReadClient, WriteClient, Valid, Flush, EndOf, DataOf;
    RemoteIsLate(env, x);
    ClientOfRemote(env, x, c, token);
    ReadClientDoes(x, c.script);
    ReadClientWhy(x, c.script);
    ReadClientKeepsPhase(x, c.script);
    var a := if c.readable then ReadClient(x, c.script) else x;
    WriteClientTouches(a, c.writes);
    WriteClientKeepsPhase(a, c.writes);
    WriteClientWhy(a, c.writes);
  }

  /** One event, on any session: after it the session is listed for closing at the end of a stream with
      content of its client unsent, exactly when the event abandons that content. */
  lemma AbandonedOnlyThen(env: Env, x: State, e: Event)
    requires Valid(env, x)
    ensures Abandoned(env, OnEvent(env, x, e)) <==> Abandons(x, e)
    ensures Abandons(x, e) ==> OnEvent(env, x, e).h.queued
  {
    hide Valid, OnClient, OnRemote, Plan, WhyAfterRemote, WhyAfterClient, LeftByRemote, LeftByClient;
    var y := OnEvent(env, x, e);
    OnEventKeeps(env, x, e);
    if y.s.Remote() { UnsentIsLeft(env, y); }
    ListedAtEnd(env, y);
    match e
    case FromRemote(r) => if x.s.Remote() { RemoteLeaves(env, x, r); }
    case FromClient(c, token) =>
      if x.s.Remote() {
        ClientLeaves(env, x, c, token);
      } else {
        ClientWithoutRemote(env, x, c, token);
      }
  }

  lemma ListedAtEnd(env: Env, x: State)
    requires Valid(env, x)
    ensures ByEnd(x.s.closeReason) ==> x.s.remoteEof && x.h.queued
  {
  }

  /** In relay, the end of the remote's stream alone abandons whatever waits for the remote. */
  lemma EofAbandons(x: State)
    requires x.s.Remote() && x.s.phase == Relay && !x.s.remoteEof && x.s.r2c == [] && x.s.c2r != []
    ensures Abandons(x, FromRemote(RemoteEvent(true, [Eof], false, false, UNSPECIFIED, [])))
  {
    hide Flush;
    assert EndOf(false, [Eof]) == Eof && DataOf(false, [Eof]) == [];
  }

  // ---------------------------------------------------------------- the order of what the client is told

  /** The verdict on the connection that an event queues for the client. */
  function VerdictOf(x: State, r: RemoteEvent): seq<Byte> {
    if x.s.phase != Connecting || !r.writable then []
    else if r.connectError then FailureReply(x.s.protocol) else SuccessReply(x.s.protocol, r.here)
  }

  lemma ConnectHistory(a: State, r: RemoteEvent)
    requires r.writable
    ensures var c := Connect(a, r.connectError, r.here);
            c.h == a.h.(verdict := c.h.verdict, local := c.h.local)
            && c.h.verdict == if a.s.phase == Connecting then VerdictOf(a, r) else a.h.verdict
  {
    hide SuccessReply, FailureReply;
  }

  lemma FlushHistory(c: State, writes: seq<WriteOutcome>)
    ensures var y := ShutRemote(FlushRemote(c, writes));
            y.h == c.h.(remoteSent := y.h.remoteSent, queued := y.h.queued)
  {
    hide Flush;
  }

  /** What an event on the remote adds to the history of what the client is told. */
  lemma RemoteHistory(x: State, r: RemoteEvent)
    ensures var y, b, early := OnRemote(x, r), RemoteData(x, r), x.s.phase == Connecting;
            && y.h.replied == x.h.replied
            && y.h.early == (if early then x.h.early + b else x.h.early)
            && y.h.late == (if early then x.h.late else x.h.late + b)
            && y.h.verdict == (if early && r.writable then VerdictOf(x, r) else x.h.verdict)
  {
    hide ReadRemote, Connect, FlushRemote, ShutRemote, SuccessReply, FailureReply, DataOf;
    var a := if r.readable then ReadRemote(x, r.script) else x;
    ReadRemoteTouches(x, r.script);
    ReadRemoteGrows(x, r.script);
    assert x.h.early + [] == x.h.early && x.h.late + [] == x.h.late;
    if r.writable {
      ConnectHistory(a, r);
      FlushHistory(Connect(a, r.connectError, r.here), r.writes);
    }
  }

  lemma ToldByHistory(env: Env, x: State)
    requires Valid(env, x)
    ensures Told(x) == x.h.replied + x.h.early + x.h.verdict + x.h.late
    ensures x.s.phase == Connecting ==> x.h.verdict == [] && x.h.late == []
    ensures !x.s.Remote() ==> Told(x) == x.h.replied && x.s.phase != Connecting
  {
    hide Fresh, Plan, Pending, SuccessReply, FailureReply;
    assert x.h.replied + [] + [] + [] == x.h.replied;
  }

  lemma Regroup(r: seq<Byte>, e: seq<Byte>, v: seq<Byte>, l: seq<Byte>, b: seq<Byte>)
    ensures r + (e + b) + v + [] == r + e + [] + [] + b + v
    ensures r + e + v + (l + b) == r + e + v + l + b + []
  {
  }

  lemma VerdictOnce(x: State, r: RemoteEvent)
    ensures x.s.phase != Connecting || !r.writable ==> VerdictOf(x, r) == []
  {
  }

  lemma RemoteTells(env: Env, x: State, r: RemoteEvent)
    requires Valid(env, x) && x.s.Remote()
    ensures Told(OnRemote(x, r)) == Told(x) + RemoteData(x, r) + VerdictOf(x, r)
  {
    hide Valid, OnRemote, Told, RemoteData, VerdictOf;
    OnRemoteKeeps(env, x, r);
    ToldByHistory(env, x);
    ToldByHistory(env, OnRemote(x, r));
    RemoteHistory(x, r);
    VerdictOnce(x, r);
    var b, v := RemoteData(x, r), VerdictOf(x, r);
    Regroup(x.h.replied, x.h.early, if x.s.phase == Connecting then v else x.h.verdict, x.h.late, b);
  }

  lemma ClientTells(env: Env, x: State, c: ClientEvent, token: nat)
    requires Valid(env, x)
    ensures var y := OnClient(env, x, c, token);
            && Told(x) <= Told(y) && (x.s.Remote() ==> Told(y) == Told(x))
            && y.h.early == x.h.early
  {
    hide Valid, OnClient, Told;
    OnClientKeeps(env, x, c, token);
    ToldByHistory(env, x);
    ToldByHistory(env, OnClient(env, x, c, token));
    ClientHistory(env, x, c, token);
  }

  lemma {:induction false} ReadClientHistory(x: State, script: seq<ReadOutcome>)
    ensures var y := ReadClient(x, script);
            y.h == x.h.(clientRead := y.h.clientRead, queued := y.h.queued)
    decreases |script|
  {
    hide Kernel;
    if script != [] && Kernel(x.s.clientEof, script[0]).Data? {
      ReadClientHistory(TakeClient(x, Kernel(x.s.clientEof, script[0])), script[1..]);
    }
  }

  lemma WriteClientHistory(x: State, writes: seq<WriteOutcome>)
    ensures var y := WriteClient(x, writes);
            y.h == x.h.(clientSent := y.h.clientSent, queued := y.h.queued)
  {
    hide Flush;
  }

  lemma {:induction false} ShakeHistory(env: Env, x: State, token: nat)
    ensures SameTraffic(x.h, Shake(env, x, token).h)
    decreases 5 - Rank(x.s.phase)
  {
    hide ShakeStep;
    StepsQuietly(env, x, token);
    var y := ShakeStep(env, x, token);
    if y.s.phase != x.s.phase { ShakeHistory(env, y, token); }
  }

  /** What an event on the client adds: replies of the handshake, and none once there is a remote. */
  lemma ClientHistory(env: Env, x: State, c: ClientEvent, token: nat)
    requires Valid(env, x)
    ensures var y := OnClient(env, x, c, token);
            && x.h.replied <= y.h.replied && y.h.early == x.h.early && y.h.verdict == x.h.verdict
            && y.h.late == x.h.late
            && (x.s.Remote() ==> y.h.replied == x.h.replied)
  {
    hide Valid, ReadClient, WriteClient, Shake;
    var a := if c.readable then ReadClient(x, c.script) else x;
    ReadClientHistory(x, c.script);
    WriteClientHistory(a, c.writes);
    ShakeHistory(env, if c.writable then WriteClient(a, c.writes) else a, token);
    if x.s.Remote() { ClientOfRemote(env, x, c, token); }
  }

  /** Everything is told in the order of the events: what an event queues for the client comes after all
      that was queued before. An event on the remote queues the bytes it reads, and after them the
      verdict on the connection; one on the client, replies of the handshake. */
  lemma QueuedInOrder(env: Env, x: State, e: Event)
    requires Valid(env, x)
    ensures var y := OnEvent(env, x, e);
            && Told(x) <= Told(y)
            && (x.s.Remote() && e.FromClient? ==> Told(y) == Told(x))
            && (x.s.Remote() && e.FromRemote? ==> Told(y) == Told(x) + RemoteData(x, e.remote) + VerdictOf(x, e.remote))
  {
    hide Valid, OnClient, OnRemote, Told, RemoteData, VerdictOf;
    match e
    case FromRemote(r) =>
      if x.s.Remote() {
        RemoteTells(env, x, r);
        assert Told(x) + RemoteData(x, r) + VerdictOf(x, r) == Told(x) + (RemoteData(x, r) + VerdictOf(x, r));
      }
    case FromClient(c, token) => ClientTells(env, x, c, token);
  }

  /** Whose byte stands at place i of what the client is told. */
  datatype Source = OfHandshake | OfRemote | OfVerdict

  function SourceAt(h: History, i: nat): Source {
    var a, b := |h.replied| + |h.early|, |h.replied| + |h.early| + |h.verdict|;
    if i < |h.replied| then OfHandshake else if i < a then OfRemote else if i < b then OfVerdict else OfRemote
  }

  /** No byte of the remote stands before a byte of the verdict. */
  ghost predicate VerdictFirst(x: State) {
    forall i: nat, j: nat :: i < j < |Told(x)| && SourceAt(x.h, i) == OfRemote ==> SourceAt(x.h, j) != OfVerdict
  }

  /** The event reads bytes of the remote while the connection is being made. */
  predicate ReadsEarly(x: State, e: Event) {
    x.s.Remote() && x.s.phase == Connecting && e.FromRemote? && RemoteData(x, e.remote) != []
  }

  lemma VerdictFirstUnlessEarly(env: Env, x: State)
    requires Valid(env, x)
    ensures VerdictFirst(x) <==> x.h.early == [] || x.h.verdict == []
  {
    hide Valid, Told;
    ToldByHistory(env, x);
    if x.h.early != [] && x.h.verdict != [] {
      var i, j := |x.h.replied|, |x.h.replied| + |x.h.early|;
      assert SourceAt(x.h, i) == OfRemote && SourceAt(x.h, j) == OfVerdict;
    }
  }

  lemma EarlyByEvent(env: Env, x: State, e: Event)
    requires Valid(env, x)
    ensures OnEvent(env, x, e).h.early == [] <==> x.h.early == [] && !ReadsEarly(x, e)
  {
    hide Valid, OnClient, OnRemote, RemoteData, VerdictOf;
    match e
    case FromRemote(r) => RemoteHistory(x, r);
    case FromClient(c, token) => ClientHistory(env, x, c, token);
  }

  /** None of the first n events of a run reads early. */
  ghost predicate NoneEarly(env: Env, events: seq<Event>, n: nat)
    requires n <= |events|
  {
    forall k :: 0 <= k < n ==> !ReadsEarly(After(env, events, k), events[k])
  }

  lemma NoneEarlyNext(env: Env, events: seq<Event>, n: nat)
    requires n < |events|
    ensures var early := ReadsEarly(After(env, events, n), events[n]);
            NoneEarly(env, events, n + 1) <==> NoneEarly(env, events, n) && !early
  {
    hide After, ReadsEarly;
  }

  lemma NoneEarlyFirst(env: Env, events: seq<Event>)
    ensures After(env, events, 0) == START && NoneEarly(env, events, 0)
  {
    assert events[..0] == [];
  }

  lemma {:induction false} EarlyByRun(env: Env, events: seq<Event>, n: nat)
    requires n <= |events|
    ensures After(env, events, n).h.early == [] <==> NoneEarly(env, events, n)
  {
    hide After, Valid, ReadsEarly, OnEvent, NoneEarly, RunEvents;
    if n == 0 {
      NoneEarlyFirst(env, events);
    } else {
      EarlyByRun(env, events, n - 1);
      AfterNext(env, events, n - 1);
      EarlyByEvent(env, After(env, events, n - 1), events[n - 1]);
      NoneEarlyNext(env, events, n - 1);
    }
  }

  lemma RelayVerdict(env: Env, x: State)
    requires Valid(env, x) && x.s.phase == Relay
    ensures x.h.verdict == [] <==> x.s.protocol == HttpForward
  {
    WhoIsAnswered(x.s.protocol, x.h.local);
    assert Stand(x).protocol != Unknown;
    hide Plan, Pending, SuccessReply, FailureReply;
  }

  /** In relay, the reply on the connection stands before all of the remote's bytes exactly when no event
      read any while the connection was being made, or the protocol has no such reply. */
  lemma VerdictComesFirst(env: Env, events: seq<Event>)
    ensures var x := RunEvents(env, events);
            x.s.phase == Relay ==>
              (VerdictFirst(x) <==>
                x.s.protocol == HttpForward || NoneEarly(env, events, |events|))
  {
    hide Valid, ReadsEarly, OnEvent, VerdictFirst, NoneEarly;
    var x := RunEvents(env, events);
    assert events[..|events|] == events;
    EarlyByRun(env, events, |events|);
    RunIsValid(env, events);
    VerdictFirstUnlessEarly(env, x);
    if x.s.phase == Relay { RelayVerdict(env, x); }
  }
}
