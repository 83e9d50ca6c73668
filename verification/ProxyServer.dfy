/** The proxy's tables: its sessions, the map from remote tokens to them, and the list of sessions to
    close. */
module ProxyServer {
  import opened Bytes
  import opened Collections
  import opened Oracles
  import opened HttpRewrite
  import opened Socks5Codec
  import opened Handshake
  import opened SessionModel
  import opened SessionRuns
  import opened SessionCorners
  import opened ProxySession

  // ---------------------------------------------------------------- tokens of one session

  lemma RemoteKeepsToken(x: State, e: RemoteEvent)
    ensures OnRemote(x, e).s.remoteToken == x.s.remoteToken
  {
    hide ReadRemote, Connect, FlushRemote, ShutRemote;
    var a := if e.readable then ReadRemote(x, e.script) else x;
    ReadRemoteTouches(x, e.script);
    ConnectKeepsToken(a, e.connectError, e.here);
    FlushKeepsToken(Connect(a, e.connectError, e.here), e.writes);
  }

  /** A session gets a remote token once, and it is the one it was offered. */
  ghost predicate TakesToken(x: State, y: State, token: nat) {
    y.s.remoteToken == x.s.remoteToken || (x.s.remoteToken == None && y.s.remoteToken == Some(token))
  }

  lemma StepTakesToken(env: Env, x: State, token: nat)
    requires x.s.Remote() ==> !Early(x.s.phase)
    ensures TakesToken(x, ShakeStep(env, x, token), token)
  {
    hide ParseHttp, ParseTarget;
    if x.s.Remote() {
      assert ShakeStep(env, x, token) == x;
    } else {
      StepsQuietly(env, x, token);
    }
  }

  lemma {:induction false} ShakeTakesToken(env: Env, x: State, token: nat)
    requires x.s.Remote() ==> !Early(x.s.phase)
    ensures TakesToken(x, Shake(env, x, token), token)
    decreases 5 - Rank(x.s.phase)
  {
    var y := ShakeStep(env, x, token);
    StepTakesToken(env, x, token);
    StepsQuietly(env, x, token);
    if x.s.Remote() {
      assert y == x;
    } else if y.s.phase != x.s.phase {
      hide ShakeStep;
      ShakeTakesToken(env, y, token);
    }
  }

  lemma ClientTakesToken(env: Env, x: State, e: ClientEvent, token: nat)
    requires x.s.Remote() ==> !Early(x.s.phase)
    ensures TakesToken(x, OnClient(env, x, e, token), token)
  {
    hide ReadClient, WriteClient, Shake;
    var a := if e.readable then ReadClient(x, e.script) else x;
    ReadClientKeepsPhase(x, e.script);
    WriteClientKeepsPhase(a, e.writes);
    ShakeTakesToken(env, if e.writable then WriteClient(a, e.writes) else a, token);
  }

  // ---------------------------------------------------------------- the tables

  /** Remote tokens and sessions point at each other; client and remote tokens are different, and all
      have been given out. */
  ghost predicate Linked(sessions: map<nat, Session>, remoteToClient: map<nat, nat>, nextToken: nat) {
    && (forall r :: r in remoteToClient ==>
         remoteToClient[r] in sessions && sessions[remoteToClient[r]].remoteToken == Some(r))
    && (forall c :: c in sessions && sessions[c].Remote() ==>
          sessions[c].remoteToken.value in remoteToClient && remoteToClient[sessions[c].remoteToken.value] == c)
    && (forall c :: c in sessions ==> 1 < c <= nextToken && c !in remoteToClient)
    && (forall r :: r in remoteToClient ==> 1 < r <= nextToken)
  }

  lemma LinkedAdd(sessions: map<nat, Session>, remoteToClient: map<nat, nat>, nextToken: nat, s: Session)
    requires Linked(sessions, remoteToClient, nextToken) && !s.Remote() && nextToken >= 1
    ensures Linked(sessions[nextToken + 1 := s], remoteToClient, nextToken + 1)
  {
  }

  /** A session changes but keeps its remote token. */
  lemma LinkedKeep(sessions: map<nat, Session>, remoteToClient: map<nat, nat>, nextToken: nat, c: nat, s: Session)
    requires Linked(sessions, remoteToClient, nextToken) && c in sessions && s.remoteToken == sessions[c].remoteToken
    ensures Linked(sessions[c := s], remoteToClient, nextToken)
  {
  }

  /** A session gets the next token for its remote. */
  lemma LinkedDial(sessions: map<nat, Session>, remoteToClient: map<nat, nat>, nextToken: nat, c: nat, s: Session)
    requires Linked(sessions, remoteToClient, nextToken) && c in sessions && !sessions[c].Remote() && nextToken >= 1
    requires s.remoteToken == Some(nextToken + 1)
    ensures Linked(sessions[c := s], remoteToClient[nextToken + 1 := c], nextToken + 1)
  {
    assert nextToken + 1 !in sessions && nextToken + 1 !in remoteToClient;
  }

  lemma LinkedDrop(sessions: map<nat, Session>, remoteToClient: map<nat, nat>, nextToken: nat, c: nat)
    requires Linked(sessions, remoteToClient, nextToken) && c in sessions
    ensures var own := sessions[c].remoteToken;
            var left := if own.Some? then remoteToClient - {own.value} else remoteToClient;
            Linked(sessions - {c}, left, nextToken)
  {
  }

  /** A session is where a run of it leads, and listed for closing if that run lists it. */
  ghost predicate Follows(env: Env, s: Session, events: seq<Event>, listed: bool) {
    s == RunEvents(env, events).s && (RunEvents(env, events).h.queued <==> listed)
  }

  ghost predicate AllFollow(env: Env, sessions: map<nat, Session>, trail: map<nat, seq<Event>>, toClose: seq<nat>) {
    forall c :: c in sessions ==> c in trail && Follows(env, sessions[c], trail[c], c in toClose)
  }

  lemma RunGrows(env: Env, events: seq<Event>, e: Event)
    ensures RunEvents(env, events + [e]) == OnEvent(env, RunEvents(env, events), e)
  {
    assert (events + [e])[..|events|] == events;
    hide OnEvent;
  }

  function Repeat(c: nat, n: nat): seq<nat> { if n == 0 then [] else [c] + Repeat(c, n - 1) }

  lemma {:induction false} RepeatHolds(c: nat, n: nat)
    ensures forall t :: t in Repeat(c, n) <==> t == c && n > 0
  {
    if n > 0 { RepeatHolds(c, n - 1); }
  }

  /** One session goes one event further; the others stay. */
  lemma AllFollowNext(env: Env, sessions: map<nat, Session>, trail: map<nat, seq<Event>>, toClose: seq<nat>,
                      c: nat, e: Event, s: Session, h: History, closes: nat)
    requires AllFollow(env, sessions, trail, toClose) && c in sessions
    requires State(s, h) == OnEvent(env, RunEvents(env, trail[c]), e) && Lists(RunEvents(env, trail[c]).h, h, closes)
    ensures AllFollow(env, sessions[c := s], trail[c := trail[c] + [e]], toClose + Repeat(c, closes))
  {
    RunGrows(env, trail[c], e);
    RepeatHolds(c, closes);
    hide OnEvent, RunEvents, Repeat;
    var more := toClose + Repeat(c, closes);
    forall d | d in sessions ensures d != c ==> (d in more <==> d in toClose) {
      assert Follows(env, sessions[d], trail[d], d in toClose);
    }
    assert Follows(env, sessions[c], trail[c], c in toClose);
  }

  lemma AllFollowNew(env: Env, sessions: map<nat, Session>, trail: map<nat, seq<Event>>, toClose: seq<nat>, c: nat)
    requires AllFollow(env, sessions, trail, toClose) && c !in toClose
    ensures AllFollow(env, sessions[c := NEW_SESSION], trail[c := []], toClose)
  {
    assert RunEvents(env, []) == START;
    hide RunEvents;
  }

  datatype Ready = Ready(
    readable: bool, script: seq<ReadOutcome>, writable: bool, writes: seq<WriteOutcome>, connectError: bool,
    here: SockAddr)

  /** What one poll reports: connections to accept, or an event for a token. */
  datatype Step = Incoming(arrivals: seq<SockAddr>) | Report(tk: nat, e: Ready)

  /** Those that are not on the list go on as before, with an empty list. */
  lemma StayersFollow(env: Env, sessions: map<nat, Session>, trail: map<nat, seq<Event>>, list: seq<nat>)
    requires AllFollow(env, sessions, trail, list)
    ensures AllFollow(env, sessions - Elements(list), trail, [])
  {
    hide RunEvents;
    var rest := sessions - Elements(list);
    forall c | c in rest ensures c in trail && Follows(env, rest[c], trail[c], false) {
      assert c in sessions && c !in list;
      assert Follows(env, sessions[c], trail[c], c in list);
    }
  }

  // ---------------------------------------------------------------- the loop, on values

  /** The tables, the sessions listed for closing, and the events each session was served. */
  datatype World = World(
    sessions: map<nat, Session>, remoteToClient: map<nat, nat>, listed: set<nat>, next: nat,
    trail: map<nat, seq<Event>>)

  /** A session is served an event; if that starts a connection, its token is the next one. */
  ghost function Served(env: Env, w: World, c: nat, e: Event): World
    requires c in w.sessions && c in w.trail
  {
    var y := OnEvent(env, RunEvents(env, w.trail[c]), e);
    var dialled := y.s.Remote() && !w.sessions[c].Remote();
    World(w.sessions[c := y.s], if dialled then w.remoteToClient[w.next + 1 := c] else w.remoteToClient,
          if y.h.queued then w.listed + {c} else w.listed, if dialled then w.next + 1 else w.next,
          w.trail[c := w.trail[c] + [e]])
  }

  /** An event for a token: that of a remote is its session's, any other that of a client. */
  ghost function Handled(env: Env, w: World, tk: nat, e: Ready): World {
    var c := if tk in w.remoteToClient then w.remoteToClient[tk] else tk;
    if c !in w.sessions || c !in w.trail then w
    else Served(env, w, c,
      if tk in w.remoteToClient
      then FromRemote(RemoteEvent(e.readable, e.script, e.writable, e.connectError, e.here, e.writes))
      else FromClient(ClientEvent(e.readable, e.script, e.writable, e.writes), w.next + 1))
  }

  ghost function Entered(w: World, allow: SockAddr -> bool, quota: Option<nat>, arrivals: seq<SockAddr>): World
    decreases |arrivals|
  {
    if arrivals == [] then w
    else if !allow(arrivals[0]) || (quota.Some? && |w.sessions| >= quota.value)
    then Entered(w, allow, quota, arrivals[1..])
    else Entered(OneEntered(w), allow, quota, arrivals[1..])
  }

  /** New sessions stand under the tokens from w's to v's; nothing else has changed. */
  ghost predicate OnlyNew(w: World, v: World) {
    && v.remoteToClient == w.remoteToClient && v.listed == w.listed && w.next <= v.next
    && (forall c :: c in v.sessions <==> c in w.sessions || w.next < c <= v.next)
    && (forall c :: c in v.sessions ==> v.sessions[c] == if w.next < c <= v.next then NEW_SESSION else w.sessions[c])
  }

  lemma OnlyNewTwice(w: World, v: World, u: World)
    requires OnlyNew(w, v) && OnlyNew(v, u)
    ensures OnlyNew(w, u)
  {
  }

  /** The accepted get the next tokens, and a new session each. */
  lemma {:induction false} EnteredAreNew(w: World, allow: SockAddr -> bool, quota: Option<nat>, arrivals: seq<SockAddr>)
    ensures OnlyNew(w, Entered(w, allow, quota, arrivals))
    decreases |arrivals|
  {
    if arrivals != [] {
      assert OnlyNew(w, OneEntered(w));
      hide OnlyNew, OneEntered;
      if !allow(arrivals[0]) || (quota.Some? && |w.sessions| >= quota.value) {
        EnteredAreNew(w, allow, quota, arrivals[1..]);
      } else {
        EnteredAreNew(OneEntered(w), allow, quota, arrivals[1..]);
        OnlyNewTwice(w, OneEntered(w), Entered(OneEntered(w), allow, quota, arrivals[1..]));
      }
    }
  }

  ghost function OneEntered(w: World): World {
    w.(sessions := w.sessions[w.next + 1 := NEW_SESSION], trail := w.trail[w.next + 1 := []], next := w.next + 1)
  }

  ghost function Without(remoteToClient: map<nat, nat>, gone: set<nat>): map<nat, nat> {
    map r | r in remoteToClient && remoteToClient[r] !in gone :: remoteToClient[r]
  }

  /** The listed sessions and the tokens of their remotes go. */
  ghost function Closed(w: World): World {
    w.(sessions := w.sessions - w.listed, listed := {}, remoteToClient := Without(w.remoteToClient, w.listed))
  }

  lemma WithoutMore(m: map<nat, nat>, s: seq<nat>, i: nat)
    requires i < |s|
    ensures Without(Without(m, Elements(s[..i])), {s[i]}) == Without(m, Elements(s[..i + 1]))
  {
  }

  ghost function Stepped(env: Env, allow: SockAddr -> bool, quota: Option<nat>, w: World, step: Step): World {
    match step
    case Incoming(arrivals) => Entered(w, allow, quota, arrivals)
    case Report(tk, e) => Handled(env, w, tk, e)
  }

  ghost function AllStepped(env: Env, allow: SockAddr -> bool, quota: Option<nat>, w: World, batch: seq<Step>): World
    decreases |batch|
  {
    if batch == [] then w else AllStepped(env, allow, quota, Stepped(env, allow, quota, w, batch[0]), batch[1..])
  }

  ghost function AllTurned(env: Env, allow: SockAddr -> bool, quota: Option<nat>, w: World,
                           batches: seq<seq<Step>>): World
    decreases |batches|
  {
    if batches == [] then w
    else AllTurned(env, allow, quota, Closed(AllStepped(env, allow, quota, w, batches[0])), batches[1..])
  }

  /** Steps, and turns, are taken one after the other. */
  lemma {:induction false} StepsCompose(env: Env, allow: SockAddr -> bool, quota: Option<nat>, w: World, a: seq<Step>,
                                        b: seq<Step>)
    ensures AllStepped(env, allow, quota, w, a + b) ==
            AllStepped(env, allow, quota, AllStepped(env, allow, quota, w, a), b)
    decreases |a|
  {
    hide Stepped;
    if a == [] {
      assert a + b == b;
    } else {
      assert (a + b)[0] == a[0] && (a + b)[1..] == a[1..] + b;
      StepsCompose(env, allow, quota, Stepped(env, allow, quota, w, a[0]), a[1..], b);
    }
  }

  lemma OneStep(env: Env, allow: SockAddr -> bool, quota: Option<nat>, w: World, tk: nat, e: Ready,
                arrivals: seq<SockAddr>)
    ensures AllStepped(env, allow, quota, w, [Report(tk, e)]) == Handled(env, w, tk, e)
    ensures AllStepped(env, allow, quota, w, [Incoming(arrivals)]) == Entered(w, allow, quota, arrivals)
  {
    hide Handled, Entered;
    var one, other := [Report(tk, e)], [Incoming(arrivals)];
    assert one[1..] == [] && other[1..] == [];
    assert AllStepped(env, allow, quota, Handled(env, w, tk, e), []) == Handled(env, w, tk, e);
  }

  lemma {:induction false} TurnsCompose(env: Env, allow: SockAddr -> bool, quota: Option<nat>, w: World,
                                        a: seq<seq<Step>>, b: seq<seq<Step>>)
    ensures AllTurned(env, allow, quota, w, a + b) ==
            AllTurned(env, allow, quota, AllTurned(env, allow, quota, w, a), b)
    ensures forall batch :: AllTurned(env, allow, quota, w, [batch]) == Closed(AllStepped(env, allow, quota, w, batch))
    decreases |a|
  {
    hide Closed, AllStepped;
    forall batch
      ensures AllTurned(env, allow, quota, w, [batch]) == Closed(AllStepped(env, allow, quota, w, batch))
    {
      var one := [batch];
      var v := Closed(AllStepped(env, allow, quota, w, batch));
      assert one[1..] == [] && AllTurned(env, allow, quota, v, []) == v;
    }
    if a == [] {
      assert a + b == b;
    } else {
      assert (a + b)[0] == a[0] && (a + b)[1..] == a[1..] + b;
      TurnsCompose(env, allow, quota, Closed(AllStepped(env, allow, quota, w, a[0])), a[1..], b);
    }
  }

  /** How many of the arrivals are allowed. */
  function Allowed(allow: SockAddr -> bool, arrivals: seq<SockAddr>): nat {
    if arrivals == [] then 0 else (if allow(arrivals[0]) then 1 else 0) + Allowed(allow, arrivals[1..])
  }

  /** As many are accepted as are allowed and have room. */
  function Accepted(allow: SockAddr -> bool, quota: Option<nat>, size: nat, arrivals: seq<SockAddr>): nat {
    var n := Allowed(allow, arrivals);
    if quota.None? then n else if quota.value <= size then 0 else Min(n, quota.value - size)
  }

  lemma {:induction false} EnteredCount(w: World, allow: SockAddr -> bool, quota: Option<nat>, arrivals: seq<SockAddr>)
    requires forall c :: c in w.sessions ==> c <= w.next
    ensures Entered(w, allow, quota, arrivals).next == w.next + Accepted(allow, quota, |w.sessions|, arrivals)
    decreases |arrivals|
  {
    if arrivals != [] {
      if !allow(arrivals[0]) || (quota.Some? && |w.sessions| >= quota.value) {
        EnteredCount(w, allow, quota, arrivals[1..]);
      } else {
        SizeOfAdd(w.sessions, w.next + 1, NEW_SESSION);
        EnteredCount(OneEntered(w), allow, quota, arrivals[1..]);
      }
    }
  }

  lemma {:induction false} EnteredTrails(w: World, allow: SockAddr -> bool, quota: Option<nat>, arrivals: seq<SockAddr>)
    ensures var v := Entered(w, allow, quota, arrivals);
            && w.next <= v.next
            && (forall c :: c in v.trail <==> c in w.trail || w.next < c <= v.next)
            && (forall c :: c in v.trail ==> v.trail[c] == if w.next < c <= v.next then [] else w.trail[c])
    decreases |arrivals|
  {
    if arrivals != [] {
      hide OneEntered;
      if !allow(arrivals[0]) || (quota.Some? && |w.sessions| >= quota.value) {
        EnteredTrails(w, allow, quota, arrivals[1..]);
      } else {
        OneTrail(w);
        EnteredTrails(OneEntered(w), allow, quota, arrivals[1..]);
      }
    }
  }

  lemma OneTrail(w: World)
    ensures OneEntered(w).next == w.next + 1 && OneEntered(w).trail == w.trail[w.next + 1 := []]
  {
  }

  // ---------------------------------------------------------------- what a session hears of a turn

  function ForClient(e: Ready): ClientEvent { ClientEvent(e.readable, e.script, e.writable, e.writes) }

  function ForRemote(e: Ready): RemoteEvent {
    RemoteEvent(e.readable, e.script, e.writable, e.connectError, e.here, e.writes)
  }

  /** A report for one of a session's two tokens is one event more for it, and nothing else is. */
  ghost predicate Goes(env: Env, c: nat, was: seq<Event>, now: seq<Event>, step: Step) {
    if step.Report? && step.tk == c then
      |now| == |was| + 1 && now[..|was|] == was && now[|was|].FromClient? && now[|was|].client == ForClient(step.e)
    else if step.Report? && RunEvents(env, now).s.remoteToken == Some(step.tk) then
      now == was + [FromRemote(ForRemote(step.e))]
    else now == was
  }

  /** What a session had been served before a step. */
  ghost function Before(env: Env, c: nat, now: seq<Event>, step: Step): seq<Event> {
    if step.Report? && now != [] && (step.tk == c || RunEvents(env, now).s.remoteToken == Some(step.tk))
    then now[..|now| - 1] else now
  }

  /** The events a session was served are those it had been served, and then those that a batch reports
      for its two tokens, in order. */
  ghost predicate Heard(env: Env, c: nat, was: seq<Event>, now: seq<Event>, batch: seq<Step>)
    decreases |batch|
  {
    if batch == [] then now == was else
      var n := |batch| - 1;
      var before := Before(env, c, now, batch[n]);
      Goes(env, c, before, now, batch[n]) && Heard(env, c, was, before, batch[..n])
  }

  lemma HeardNext(env: Env, c: nat, was: seq<Event>, mid: seq<Event>, now: seq<Event>, batch: seq<Step>, step: Step)
    requires Heard(env, c, was, mid, batch) && Goes(env, c, mid, now, step)
    ensures Heard(env, c, was, now, batch + [step])
  {
    var all := batch + [step];
    assert all[..|all| - 1] == batch && all[|all| - 1] == step;
    hide RunEvents;
    assert Before(env, c, now, step) == mid;
  }

  /** An event for a token is served to the session that has it, and to no other. */
  lemma HandledServes(env: Env, w: World, tk: nat, e: Ready, c: nat)
    requires Linked(w.sessions, w.remoteToClient, w.next) && c in w.sessions
    requires forall d :: d in w.sessions ==> d in w.trail
    ensures var v := Handled(env, w, tk, e);
            && c in v.sessions && c in v.trail
            && (tk == c ==> exists token ::
                 v.trail[c] == w.trail[c] + [FromClient(ForClient(e), token)])
            && (tk != c && w.sessions[c].remoteToken == Some(tk) ==>
                 v.trail[c] == w.trail[c] + [FromRemote(ForRemote(e))])
            && (tk != c && w.sessions[c].remoteToken != Some(tk) ==>
                 v.trail[c] == w.trail[c] && v.sessions[c] == w.sessions[c])
  {
    hide OnEvent, RunEvents;
    var v := Handled(env, w, tk, e);
    if tk == c {
      assert v.trail[c] == w.trail[c] + [FromClient(ForClient(e), w.next + 1)];
    }
  }

  lemma RemoteStays(env: Env, events: seq<Event>, r: RemoteEvent)
    ensures RunEvents(env, events + [FromRemote(r)]).s.remoteToken == RunEvents(env, events).s.remoteToken
  {
    hide RunEvents, OnRemote;
    RunGrows(env, events, FromRemote(r));
    RemoteKeepsToken(RunEvents(env, events), r);
  }

  lemma ReportGoes(env: Env, w: World, tk: nat, e: Ready, c: nat)
    requires Linked(w.sessions, w.remoteToClient, w.next) && c in w.sessions
    requires forall d :: d in w.sessions ==> d in w.trail && w.sessions[d] == RunEvents(env, w.trail[d]).s
    ensures var v := Handled(env, w, tk, e);
            c in v.sessions && c in v.trail && Goes(env, c, w.trail[c], v.trail[c], Report(tk, e))
  {
    hide RunEvents, Linked, Handled;
    HandledServes(env, w, tk, e, c);
    RemoteStays(env, w.trail[c], ForRemote(e));
  }

  lemma EnteredStep(w: World, allow: SockAddr -> bool, quota: Option<nat>, arrivals: seq<SockAddr>, i: nat)
    requires i < |arrivals|
    ensures Entered(w, allow, quota, arrivals[i..]) ==
      Entered(if !allow(arrivals[i]) || (quota.Some? && |w.sessions| >= quota.value) then w else OneEntered(w),
              allow, quota, arrivals[i + 1..])
  {
  }

  lemma NoneLeft(w: World, allow: SockAddr -> bool, quota: Option<nat>, arrivals: seq<SockAddr>)
    requires arrivals == []
    ensures Entered(w, allow, quota, arrivals) == w
  {
  }

  lemma ServedIs(env: Env, w: World, c: nat, e: Event, v: World)
    requires c in w.sessions && c in w.trail
    requires var y := OnEvent(env, RunEvents(env, w.trail[c]), e);
             var dialled := y.s.Remote() && !w.sessions[c].Remote();
             && v.sessions == w.sessions[c := y.s] && v.trail == w.trail[c := w.trail[c] + [e]]
             && v.remoteToClient == (if dialled then w.remoteToClient[w.next + 1 := c] else w.remoteToClient)
             && v.listed == (if y.h.queued then w.listed + {c} else w.listed)
             && v.next == if dialled then w.next + 1 else w.next
    ensures v == Served(env, w, c, e)
  {
    hide OnEvent, RunEvents;
  }

  /** The list of sessions to close after one asked to be on it, or not. */
  lemma Listing(toClose: seq<nat>, c: nat, closes: nat)
    ensures Elements(toClose + Repeat(c, closes)) ==
            if closes > 0 || c in toClose then Elements(toClose) + {c} else Elements(toClose)
  {
  }

  class Server {
    const env: Env
    const allow: SockAddr -> bool
    const quota: Option<nat>

    var sessions: map<nat, Session>
    var remoteToClient: map<nat, nat>
    var toClose: seq<nat>
    var nextToken: nat

    /** The events each session was served, by its token; tokens are not used twice. */
    ghost var trail: map<nat, seq<Event>>

    constructor (env: Env, allow: SockAddr -> bool, quota: Option<nat>)
      ensures Valid() && sessions == map[] && toClose == []
    {
      this.env, this.allow, this.quota := env, allow, quota;
      sessions, remoteToClient, toClose, nextToken, trail := map[], map[], [], 1, map[];
    }

    ghost function WorldOf(): World
      reads this
    {
      World(sessions, remoteToClient, Elements(toClose), nextToken, trail)
    }

    ghost predicate Valid()
      reads this
    {
      && nextToken >= 1
      && Linked(sessions, remoteToClient, nextToken)
      && AllFollow(env, sessions, trail, toClose)
      && (quota.Some? ==> |sessions| <= quota.value)
      && (forall t :: t in toClose ==> t in sessions)
    }

    // -------------------------------------------------------------- events

    /** The handled session goes back into its table, and onto the list if it asked for that. */
    method PutBack(c: nat, s: Session, closes: nat, ghost e: Event)
      requires c in sessions && c in trail
      modifies `sessions, `toClose, `trail
      ensures sessions == old(sessions)[c := s] && toClose == old(toClose) + Repeat(c, closes)
      ensures trail == old(trail)[c := old(trail)[c] + [e]]
      ensures |sessions| == |old(sessions)| && sessions.Keys == old(sessions).Keys
      ensures forall t :: t in toClose ==> t in old(toClose) || t == c
    {
      SizeOfPut(sessions, c, s);
      RepeatHolds(c, closes);
      sessions := sessions[c := s];
      toClose := toClose + Repeat(c, closes);
      trail := trail[c := trail[c] + [e]];
    }

    lemma Known(c: nat)
      requires Valid() && c in sessions
      ensures c in trail && sessions[c] == RunEvents(env, trail[c]).s
      ensures RunEvents(env, trail[c]).h.queued <==> c in toClose
      ensures sessions[c].Remote() ==> !Early(sessions[c].phase)
    {
      assert Follows(env, sessions[c], trail[c], c in toClose);
      RunIsValid(env, trail[c]);
      hide RunEvents, Fresh, DownstreamOk;
    }

    method HandleRemote(c: nat, e: RemoteEvent)
      requires Valid() && c in sessions && c in trail && sessions[c].Remote()
      modifies `sessions, `toClose, `trail
      ensures Valid() && WorldOf() == old(Served(env, WorldOf(), c, FromRemote(e)))
    {
      hide OnRemote, OnEvent, RunEvents, Linked, AllFollow, Repeat, Served, Elements;
      Known(c);
      ghost var x := RunEvents(env, trail[c]);
      RemoteKeepsToken(x, e);
      RemoteEventIs(env, x, e);
      var s, closes;
      ghost var h;
      s, h, closes := OnRemoteEvent(sessions[c], x.h, e);
      LinkedKeep(sessions, remoteToClient, nextToken, c, s);
      AllFollowNext(env, sessions, trail, toClose, c, FromRemote(e), s, h, closes);
      Listing(toClose, c, closes);
      PutBack(c, s, closes, FromRemote(e));
      ServedIs(env, old(WorldOf()), c, FromRemote(e), WorldOf());
    }

    method HandleClient(c: nat, e: ClientEvent)
      requires Valid() && c in sessions && c in trail
      modifies `sessions, `toClose, `trail, `remoteToClient, `nextToken
      ensures Valid() && WorldOf() == old(Served(env, WorldOf(), c, FromClient(e, nextToken + 1)))
    {
      hide OnClient, OnEvent, RunEvents, Linked, AllFollow, Repeat, Served, Elements;
      Known(c);
      ghost var x := RunEvents(env, trail[c]);
      var was := sessions[c];
      ClientTakesToken(env, x, e, nextToken + 1);
      ClientEventIs(env, x, e, nextToken + 1);
      var s, closes;
      ghost var h;
      s, h, closes := OnClientEvent(env, was, x.h, e, nextToken + 1);
      AllFollowNext(env, sessions, trail, toClose, c, FromClient(e, nextToken + 1), s, h, closes);
      Listing(toClose, c, closes);
      if s.Remote() && !was.Remote() {
        LinkedDial(sessions, remoteToClient, nextToken, c, s);
        PutBack(c, s, closes, FromClient(e, nextToken + 1));
        nextToken := nextToken + 1;
        remoteToClient := remoteToClient[nextToken := c];
      } else {
        LinkedKeep(sessions, remoteToClient, nextToken, c, s);
        PutBack(c, s, closes, FromClient(e, nextToken + 1));
      }
      ServedIs(env, old(WorldOf()), c, FromClient(e, old(nextToken) + 1), WorldOf());
    }

    lemma Trails()
      requires Valid()
      ensures forall c :: c in sessions ==> c in trail && sessions[c] == RunEvents(env, trail[c]).s && c <= nextToken
    {
      hide RunEvents;
      forall c | c in sessions ensures c in trail && sessions[c] == RunEvents(env, trail[c]).s {
        assert Follows(env, sessions[c], trail[c], c in toClose);
      }
    }

    /** An event for a session that is gone is skipped; one for a session's token is served to it. */
    method Handle(tk: nat, e: Ready)
      requires Valid()
      modifies `sessions, `toClose, `trail, `remoteToClient, `nextToken
      ensures Valid() && WorldOf() == Handled(env, old(WorldOf()), tk, e)
      ensures forall c :: c in old(sessions) ==>
                c in sessions && c in trail && Goes(env, c, old(trail)[c], trail[c], Report(tk, e))
    {
      hide Linked, AllFollow, Served, Goes, RunEvents, Handled;
      Trails();
      ghost var w := WorldOf();
      assert Linked(w.sessions, w.remoteToClient, w.next);
      DoHandle(tk, e);
      forall c | c in old(sessions)
        ensures c in sessions && c in trail && Goes(env, c, old(trail)[c], trail[c], Report(tk, e))
      {
        ReportGoes(env, w, tk, e, c);
        assert WorldOf().sessions == sessions && WorldOf().trail == trail;
      }
    }

    method DoHandle(tk: nat, e: Ready)
      requires Valid()
      modifies `sessions, `toClose, `trail, `remoteToClient, `nextToken
      ensures Valid() && WorldOf() == Handled(env, old(WorldOf()), tk, e)
    {
      hide Linked, AllFollow, Served;
      ReachesSession(tk);
      var c := if tk in remoteToClient then remoteToClient[tk] else tk;
      if c !in sessions { return; }
      Known(c);
      if tk in remoteToClient {
        HandleRemote(c, RemoteEvent(e.readable, e.script, e.writable, e.connectError, e.here, e.writes));
      } else {
        HandleClient(c, ClientEvent(e.readable, e.script, e.writable, e.writes));
      }
    }

    lemma ReachesSession(tk: nat)
      requires Valid()
      ensures tk in remoteToClient ==>
              remoteToClient[tk] in sessions && sessions[remoteToClient[tk]].remoteToken == Some(tk)
    {
    }

    // -------------------------------------------------------------- accepting

    method Insert()
      modifies `sessions, `nextToken, `trail
      ensures nextToken == old(nextToken) + 1
      ensures sessions == old(sessions)[nextToken := NEW_SESSION] && trail == old(trail)[nextToken := []]
    {
      nextToken := nextToken + 1;
      sessions := sessions[nextToken := NEW_SESSION];
      trail := trail[nextToken := []];
    }

    method Enter()
      requires Valid() && (quota.Some? ==> |sessions| < quota.value)
      modifies `sessions, `nextToken, `trail
      ensures Valid() && WorldOf() == old(OneEntered(WorldOf()))
    {
      hide Linked, AllFollow, Elements;
      FreshToken();
      LinkedAdd(sessions, remoteToClient, nextToken, NEW_SESSION);
      AllFollowNew(env, sessions, trail, toClose, nextToken + 1);
      SizeOfAdd(sessions, nextToken + 1, NEW_SESSION);
      Insert();
    }

    lemma FreshToken()
      requires Valid()
      ensures nextToken + 1 !in sessions && nextToken + 1 !in toClose
    {
    }

    /** The accept loop passes over connections that are not allowed, or that there is no room for. */
    method AcceptLoop(arrivals: seq<SockAddr>)
      requires Valid()
      modifies `sessions, `nextToken, `trail
      ensures Valid() && WorldOf() == Entered(old(WorldOf()), allow, quota, arrivals)
      ensures nextToken == old(nextToken) + Accepted(allow, quota, |old(sessions)|, arrivals)
      ensures forall c :: c in sessions <==> c in old(sessions) || old(nextToken) < c <= nextToken
      ensures forall c :: c in sessions ==> sessions[c] == if c > old(nextToken) then NEW_SESSION else old(sessions)[c]
      ensures forall c :: c in old(sessions) ==> c in trail && c in old(trail) && trail[c] == old(trail)[c]
      ensures forall c :: old(nextToken) < c <= nextToken ==> c in trail && trail[c] == []
    {
      hide Linked, AllFollow, Entered, Elements, Accepted, RunEvents;
      ghost var w := WorldOf();
      Trails();
      EnteredAreNew(w, allow, quota, arrivals);
      EnteredCount(w, allow, quota, arrivals);
      EnteredTrails(w, allow, quota, arrivals);
      DoAccept(arrivals);
      assert sessions == WorldOf().sessions && trail == WorldOf().trail && nextToken == WorldOf().next;
    }

    method DoAccept(arrivals: seq<SockAddr>)
      requires Valid()
      modifies `sessions, `nextToken, `trail
      ensures Valid() && WorldOf() == Entered(old(WorldOf()), allow, quota, arrivals)
    {
      hide Linked, AllFollow, Valid, Entered, OneEntered, Elements;
      var i := 0;
      assert arrivals[0..] == arrivals;
      while i < |arrivals|
        invariant 0 <= i <= |arrivals| && Valid()
        invariant Entered(old(WorldOf()), allow, quota, arrivals) == Entered(WorldOf(), allow, quota, arrivals[i..])
      {
        EnteredStep(WorldOf(), allow, quota, arrivals, i);
        i := i + 1;
        if !allow(arrivals[i - 1]) { continue; }
        if quota.Some? && |sessions| >= quota.value { continue; }
        Enter();
      }
      NoneLeft(WorldOf(), allow, quota, arrivals[i..]);
    }

    // -------------------------------------------------------------- closing

    /** Closing a session that is gone does nothing. */
    method CloseSession(c: nat)
      requires Linked(sessions, remoteToClient, nextToken)
      modifies `sessions, `remoteToClient
      ensures Linked(sessions, remoteToClient, nextToken)
      ensures sessions == old(sessions) - {c} && remoteToClient == Without(old(remoteToClient), {c})
    {
      if c in sessions {
        LinkedDrop(sessions, remoteToClient, nextToken, c);
        var sess := sessions[c];
        sessions := sessions - {c};
        if sess.remoteToken.Some? {
          remoteToClient := remoteToClient - {sess.remoteToken.value};
        }
      } else {
        assert sessions - {c} == sessions;
      }
    }

    method RemoveListed()
      requires Linked(sessions, remoteToClient, nextToken)
      modifies `sessions, `remoteToClient
      ensures Linked(sessions, remoteToClient, nextToken)
      ensures sessions == old(sessions) - Elements(toClose)
      ensures remoteToClient == Without(old(remoteToClient), Elements(toClose))
    {
      hide Linked;
      var i := 0;
      ghost var was, tokens := sessions, remoteToClient;
      assert was - Elements(toClose[..0]) == was && Without(tokens, Elements(toClose[..0])) == tokens;
      while i < |toClose|
        invariant 0 <= i <= |toClose| && Linked(sessions, remoteToClient, nextToken)
        invariant sessions == was - Elements(toClose[..i]) && remoteToClient == Without(tokens, Elements(toClose[..i]))
      {
        DropMore(was, toClose, i);
        WithoutMore(tokens, toClose, i);
        CloseSession(toClose[i]);
        i := i + 1;
      }
      assert toClose[..i] == toClose;
    }

    /** At the end of a turn every session on the list is closed, however often it is there. */
    method CloseListed()
      requires Valid()
      modifies `sessions, `remoteToClient, `toClose
      ensures Valid() && toClose == [] && WorldOf() == Closed(old(WorldOf()))
      ensures forall c :: c in sessions <==> c in old(sessions) && c !in old(toClose)
      ensures forall c :: c in sessions ==> sessions[c] == old(sessions)[c]
      ensures forall r :: r in remoteToClient <==> r in old(remoteToClient) && old(remoteToClient)[r] !in old(toClose)
      ensures forall r :: r in remoteToClient ==> remoteToClient[r] == old(remoteToClient)[r]
    {
      hide AllFollow, Linked;
      ghost var was, list := sessions, toClose;
      RemoveListed();
      StayersFollow(env, was, trail, list);
      FewerKeys(was, Elements(list));
      toClose := [];
      assert Elements(toClose) == {};
    }

    // -------------------------------------------------------------- the loop

    /** One step: every session that was there hears what is reported for it. */
    method TakeStep(step: Step)
      requires Valid()
      modifies `sessions, `toClose, `trail, `remoteToClient, `nextToken
      ensures Valid() && WorldOf() == Stepped(env, allow, quota, old(WorldOf()), step)
      ensures forall c :: c in old(sessions) ==>
                c in sessions && c in trail && Goes(env, c, old(trail)[c], trail[c], step)
    {
      hide Valid, WorldOf, Entered, Handled, RunEvents;
      match step {
        case Incoming(arrivals) => AcceptLoop(arrivals);
        case Report(tk, e) => Handle(tk, e);
      }
    }

    method TakeSteps(batch: seq<Step>)
      requires Valid()
      modifies `sessions, `toClose, `trail, `remoteToClient, `nextToken
      ensures Valid() && WorldOf() == AllStepped(env, allow, quota, old(WorldOf()), batch)
      ensures forall c :: c in old(sessions) ==>
                c in sessions && c in trail && c in old(trail) && Heard(env, c, old(trail)[c], trail[c], batch)
    {
      Trails();
      hide Valid, WorldOf, Stepped, Goes, Heard;
      var i := 0;
      assert batch[0..] == batch;
      ghost var was, before := sessions, trail;
      HeardNothing(was, before);
      while i < |batch|
        invariant 0 <= i <= |batch| && Valid()
        invariant AllStepped(env, allow, quota, old(WorldOf()), batch) ==
          AllStepped(env, allow, quota, WorldOf(), batch[i..])
        invariant forall c :: c in was ==>
                    c in sessions && c in trail && c in before && Heard(env, c, before[c], trail[c], batch[..i])
      {
        assert batch[i..][0] == batch[i] && batch[i..][1..] == batch[i + 1..];
        assert batch[..i + 1] == batch[..i] + [batch[i]];
        ghost var mid := trail;
        TakeStep(batch[i]);
        forall c | c in was ensures Heard(env, c, before[c], trail[c], batch[..i + 1]) {
          HeardNext(env, c, before[c], mid[c], trail[c], batch[..i], batch[i]);
        }
        i := i + 1;
      }
      assert batch[..i] == batch;
    }

    lemma HeardNothing(was: map<nat, Session>, before: map<nat, seq<Event>>)
      requires forall c :: c in was ==> c in before
      ensures forall c :: c in was ==> Heard(env, c, before[c], before[c], [])
    {
    }

    lemma ListedAre()
      requires Valid()
      ensures forall c :: c in sessions ==> c in trail && (c in toClose <==> RunEvents(env, trail[c]).h.queued)
    {
      hide RunEvents;
      forall c | c in sessions ensures c in trail && (c in toClose <==> RunEvents(env, trail[c]).h.queued) {
        assert Follows(env, sessions[c], trail[c], c in toClose);
      }
    }

    /** One turn: every session hears what the batch reports for its two tokens, in order; then those that
        are listed for closing by what they heard are gone, and the others are still there. */
    method Turn(batch: seq<Step>)
      requires Valid() && toClose == []
      modifies this
      ensures Valid() && toClose == [] && WorldOf() == Closed(AllStepped(env, allow, quota, old(WorldOf()), batch))
      ensures forall c :: c in old(sessions) ==>
                && c in trail && c in old(trail) && Heard(env, c, old(trail)[c], trail[c], batch)
                && (c in sessions <==> !RunEvents(env, trail[c]).h.queued)
      ensures forall c :: c in sessions ==> c in trail && sessions[c] == RunEvents(env, trail[c]).s
    {
      hide Valid, Closed, WorldOf, AllStepped, Heard, RunEvents;
      TakeSteps(batch);
      ListedAre();
      CloseListed();
      Trails();
    }

    method Listen(batches: seq<seq<Step>>)
      requires Valid() && toClose == []
      modifies this
      ensures Valid() && toClose == [] && WorldOf() == AllTurned(env, allow, quota, old(WorldOf()), batches)
    {
      hide Valid, Closed, WorldOf, AllStepped;
      var i := 0;
      assert batches[0..] == batches;
      while i < |batches|
        invariant 0 <= i <= |batches| && Valid() && toClose == []
        invariant AllTurned(env, allow, quota, old(WorldOf()), batches) ==
          AllTurned(env, allow, quota, WorldOf(), batches[i..])
      {
        assert batches[i..][0] == batches[i] && batches[i..][1..] == batches[i + 1..];
        Turn(batches[i]);
        i := i + 1;
      }
    }
  }

  lemma RemoteEventIs(env: Env, x: State, e: RemoteEvent)
    requires x.s.Remote()
    ensures OnEvent(env, x, FromRemote(e)) == OnRemote(x, e)
  {
  }

  lemma ClientEventIs(env: Env, x: State, e: ClientEvent, token: nat)
    ensures OnEvent(env, x, FromClient(e, token)) == OnClient(env, x, e, token)
  {
  }
}
