/** The forwarder's event loop: paired tokens, its tables, and the loops that serve one event. Each
    method changes the pair it serves as ForwardPair says, and no other. */
module ForwardRelay {
  import opened Bytes
  import opened Collections
  import opened ForwardPair
  import opened ForwardRuns
  import opened ForwardRouting

  /** Tokens come in pairs: an even one for a client, the next for its target. */
  function Client(t: nat): nat { t - t % 2 }

  function Peer(t: nat): nat { if t % 2 == 0 then t + 1 else t - 1 }

  /** A pair being served: the socket is there, and nothing is registered for one that is not. */
  ghost predicate Tame(p: Pair) {
    p.over == None && p.me.open && (p.peer.open || p.peer.interest == NO_INTEREST)
  }

  lemma TameAfterEof(p: Pair)
    requires Tame(p) && TakeEof(p).over == None
    ensures Tame(TakeEof(p))
  {
  }

  lemma TameAfterData(rules: Rules, addr: SockAddr, p: Pair, bytes: seq<Byte>)
    requires Tame(p) && TakeData(rules, addr, p, bytes).over == None
    ensures Tame(TakeData(rules, addr, p, bytes))
  {
  }

  /** Bytes end a pair only for want of a target. */
  lemma DataEnds(rules: Rules, addr: SockAddr, p: Pair, bytes: seq<Byte>)
    requires p.over == None
    ensures var q := TakeData(rules, addr, p, bytes);
            && (q.over.Some? <==> !p.peer.open && Target(rules, addr, bytes).None?)
            && (q.over.None? ==> q.peer.open)
  {
  }

  lemma EofEnds(p: Pair)
    ensures TakeEof(p).over.None? ==> TakeEof(p).me.ended
  {
  }

  /** What the read loop still does once its pair is gone: it looks for a target for each chunk. */
  method ReadOn(rules: Rules, addr: SockAddr, script: seq<ReadOutcome>) returns (found: bool)
    ensures found == FindsTarget(rules, addr, script)
  {
    var i := 0;
    assert script[0..] == script;
    while i < |script|
      invariant 0 <= i <= |script| && FindsTarget(rules, addr, script) == FindsTarget(rules, addr, script[i..])
    {
      assert script[i..][0] == script[i] && script[i..][1..] == script[i + 1..];
      var outcome := Kernel(false, script[i]);
      if !outcome.Data? { return false; }
      var target := rules.decide(outcome.bytes, addr);
      if target.Some? && rules.connect(target.value) { return true; }
      i := i + 1;
    }
    return false;
  }

  /** A socket with something to write has a peer, and its counter is right. */
  lemma WaitingFacts(cache: nat, p: Pair)
    requires PairOk(cache, p) && p.me.Chunks() != []
    ensures Tame(p) && p.peer.open && NonEmpty(p.me.Chunks()) && p.me.backlog.value.total == |Flat(p.me.Chunks())|
  {
    SomethingWaits(p.me.Chunks());
    assert p.over == None && p.peer.log.read != [];
    hide Flat, NonEmpty;
  }

  /** One turn of the write loop is one step of a run of writes. */
  lemma PushStep(chunks: seq<seq<Byte>>, writes: seq<WriteOutcome>, i: nat, sent: seq<Byte>)
    requires i <= |writes| && chunks != []
    ensures sent + [] == sent
    ensures i == |writes| || writes[i].WriteBlock? ==> Push(chunks, writes[i..]) == Pushed(chunks, [], Blocked)
    ensures i < |writes| && writes[i].WriteFail? ==> Push(chunks, writes[i..]) == Pushed(chunks, [], Stop.Failed)
    ensures i < |writes| && writes[i].Took? ==>
      var s := Min(writes[i].n, |chunks[0]|);
      if s < |chunks[0]|
      then Push(chunks, writes[i..]) == Pushed([chunks[0][s..]] + chunks[1..], chunks[0][..s], Partial)
      else
        var q := Push(chunks[1..], writes[i + 1..]);
        && Push(chunks, writes[i..]) == q.(sent := chunks[0] + q.sent)
        && sent + (chunks[0] + q.sent) == (sent + chunks[0][..s]) + q.sent
        && (chunks[1..] == [] ==> q == Pushed([], [], Emptied) && sent + chunks[0][..s] + [] == sent + chunks[0][..s])
  {
  }

  method PushChunks(chunks: seq<seq<Byte>>, writes: seq<WriteOutcome>)
    returns (rest: seq<seq<Byte>>, nwritten: nat, ghost sent: seq<Byte>, stop: Stop)
    ensures rest == Push(chunks, writes).rest && stop == Push(chunks, writes).stop
    ensures nwritten == |Push(chunks, writes).sent|
    ensures sent == Push(chunks, writes).sent
  {
    rest, nwritten, sent := chunks, 0, [];
    var i := 0;
    ghost var r := Push(chunks, writes);
    assert writes[0..] == writes && [] + r.sent == r.sent;
    while rest != []
      invariant 0 <= i <= |writes| && nwritten == |sent|
      invariant r == Push(rest, writes[i..]).(sent := sent + Push(rest, writes[i..]).sent)
      decreases |rest|
    {
      var bb := rest[0];
      PushStep(rest, writes, i, sent);
      hide Push;
      if i == |writes| || writes[i].WriteBlock? { return rest, nwritten, sent, Blocked; }
      if writes[i].WriteFail? { return rest, nwritten, sent, Failed; }
      var s := Min(writes[i].n, |bb|);
      i, nwritten, rest := i + 1, nwritten + s, rest[1..];
      sent := sent + bb[..s];
      if s < |bb| { return [bb[s..]] + rest, nwritten, sent, Partial; }
    }
    assert sent + [] == sent;
    stop := Emptied;
  }

  datatype Trail = Trail(addr: SockAddr, events: seq<PairEvent>)

  const NO_PAIR: Pair := Pair(NO_SIDE, NO_SIDE, None)

  lemma RunStarts(rules: Rules, addr: SockAddr, single: Option<SockAddr>)
    ensures RunPair(rules, addr, single, []) == Accepted(single)
  {
  }

  lemma RunGrows(rules: Rules, addr: SockAddr, single: Option<SockAddr>, events: seq<PairEvent>, e: PairEvent)
    ensures RunPair(rules, addr, single, events + [e]) == OnPair(rules, addr, RunPair(rules, addr, single, events), e)
  {
  }

  /** A connection waiting to be accepted, and whether the address rules let it in. */
  datatype Arrival = Arrival(addr: SockAddr, allowed: bool)

  datatype Turn = Incoming(arrivals: seq<Arrival>) | Ready(tk: nat, e: SideEvent)

  // ---------------------------------------------------------------- the loop, on values

  datatype Setup = Setup(rules: Rules, quota: Option<nat>, single: Option<SockAddr>)

  /** The last token given out, every pair ever accepted, and the sockets connected for a pair that was
      not there any more. */
  datatype World = World(last: nat, trail: map<nat, Trail>, strays: set<nat>)

  ghost function PairIn(s: Setup, tr: Trail): Pair { RunPair(s.rules, tr.addr, s.single, tr.events) }

  /** The clients that are still there. */
  ghost function Clients(s: Setup,
                         trail: map<nat, Trail>): set<nat> { set t | t in trail && PairIn(s, trail[t]).over == None }

  ghost predicate IsOpen(s: Setup, trail: map<nat, Trail>, tk: nat) {
    var c := Client(tk);
    c in trail && if tk == c then PairIn(s, trail[c]).me.open else PairIn(s, trail[c]).peer.open
  }

  ghost function PairEventAt(tk: nat, e: SideEvent): PairEvent { if tk % 2 == 0 then AtClient(e) else AtRemote(e) }

  ghost function Longer(trail: map<nat, Trail>, tk: nat, e: SideEvent): map<nat, Trail> {
    var c := Client(tk);
    if c in trail then trail[c := Trail(trail[c].addr, trail[c].events + [PairEventAt(tk, e)])] else trail
  }

  /** Whether a client gets a pair at all: with a single target, that must be there. */
  predicate TargetIsThere(s: Setup) { s.single.Some? ==> s.rules.connect(s.single.value) }

  /** An accepted client spends two tokens even if it gets no pair. */
  ghost function LetOneIn(s: Setup, w: World, addr: SockAddr): World {
    w.(last := w.last + 2, trail := if TargetIsThere(s) then w.trail[w.last + 1 := Trail(addr, [])] else w.trail)
  }

  /** Accepting stops at the quota, and passes over addresses that are not allowed. */
  ghost function LetIn(s: Setup, w: World, arrivals: seq<Arrival>): World
    decreases |arrivals|
  {
    if arrivals == [] || (s.quota.Some? && |Clients(s, w.trail)| >= s.quota.value) then w
    else LetIn(s, if arrivals[0].allowed then LetOneIn(s, w, arrivals[0].addr) else w, arrivals[1..])
  }

  function SeenFrom(tk: nat, p: Pair): Pair { if tk % 2 == 0 then p else p.Flip() }

  /** The event makes a connection for a pair that is not there any more. */
  ghost predicate Strands(s: Setup, w: World, tk: nat, e: SideEvent) {
    && e.readable && IsOpen(s, w.trail, tk)
    && var tr := w.trail[Client(tk)];
       Orphans(s.rules, tr.addr, SeenFrom(tk, PairIn(s, tr)), e.script)
  }

  ghost function Turned(s: Setup, w: World, turn: Turn): World {
    match turn
    case Incoming(arrivals) => LetIn(s, w, arrivals)
    case Ready(tk, e) =>
      if !IsOpen(s, w.trail, tk) then w
      else World(w.last, Longer(w.trail, tk, e), if Strands(s, w, tk, e) then w.strays + {Peer(tk)} else w.strays)
  }

  /** An event for a socket without its client: the code looks the client up and fails. */
  predicate Fails(w: World, turn: Turn) { turn.Ready? && turn.tk in w.strays }

  ghost predicate NoneFails(s: Setup, w: World, turns: seq<Turn>)
    decreases |turns|
  {
    turns == [] || (!Fails(w, turns[0]) && NoneFails(s, Turned(s, w, turns[0]), turns[1..]))
  }

  ghost function AllTurned(s: Setup, w: World, turns: seq<Turn>): World
    decreases |turns|
  {
    if turns == [] then w else AllTurned(s, Turned(s, w, turns[0]), turns[1..])
  }

  lemma {:induction false} TurnsCompose(s: Setup, w: World, a: seq<Turn>, b: seq<Turn>)
    ensures AllTurned(s, w, a + b) == AllTurned(s, AllTurned(s, w, a), b)
    ensures forall turn :: AllTurned(s, w, [turn]) == Turned(s, w, turn)
    decreases |a|
  {
    hide Turned;
    forall turn ensures AllTurned(s, w, [turn]) == Turned(s, w, turn) {
      var one := [turn];
      assert one[1..] == [] && AllTurned(s, Turned(s, w, turn), []) == Turned(s, w, turn);
    }
    if a == [] {
      assert a + b == b;
    } else {
      assert (a + b)[0] == a[0] && (a + b)[1..] == a[1..] + b;
      TurnsCompose(s, Turned(s, w, a[0]), a[1..], b);
    }
  }

  // ---------------------------------------------------------------- what a pair is served

  /** An event for one of a pair's two sockets is served to it while that socket is there; nothing else
      is. */
  ghost function Next(s: Setup, t: nat, tr: Trail, turn: Turn): Trail {
    var p := RunPair(s.rules, tr.addr, s.single, tr.events);
    match turn
    case Incoming(_) => tr
    case Ready(tk, e) =>
      if tk == t && p.me.open then Trail(tr.addr, tr.events + [AtClient(e)])
      else if tk == t + 1 && p.peer.open then Trail(tr.addr, tr.events + [AtRemote(e)])
      else tr
  }

  ghost function Trailed(s: Setup, t: nat, tr: Trail, turns: seq<Turn>): Trail
    decreases |turns|
  {
    if turns == [] then tr else Trailed(s, t, Next(s, t, tr, turns[0]), turns[1..])
  }

  ghost predicate Issued(w: World) { forall t :: t in w.trail ==> t % 2 == 0 && t <= w.last }

  lemma {:induction false} LetInKeeps(s: Setup, w: World, arrivals: seq<Arrival>)
    requires Issued(w) && w.last % 2 == 1
    ensures var v := LetIn(s, w, arrivals);
            && Issued(v) && w.last <= v.last && v.last % 2 == 1
            && forall t :: t in w.trail ==> t in v.trail && v.trail[t] == w.trail[t]
    decreases |arrivals|
  {
    hide Clients;
    if arrivals != [] && !(s.quota.Some? && |Clients(s, w.trail)| >= s.quota.value) {
      LetInKeeps(s, if arrivals[0].allowed then LetOneIn(s, w, arrivals[0].addr) else w, arrivals[1..]);
    }
  }

  lemma TurnedTrails(s: Setup, w: World, turn: Turn)
    requires Issued(w) && w.last % 2 == 1
    ensures var v := Turned(s, w, turn);
            && Issued(v) && v.last % 2 == 1
            && forall t :: t in w.trail ==> t in v.trail && v.trail[t] == Next(s, t, w.trail[t], turn)
  {
    hide RunPair, LetIn, Orphans;
    match turn
    case Incoming(arrivals) => LetInKeeps(s, w, arrivals);
    case Ready(tk, e) =>
  }

  /** Over every run, each pair is served exactly the events for its two sockets that found the socket
      there, in order. */
  lemma {:induction false} AllTurnedTrails(s: Setup, w: World, turns: seq<Turn>)
    requires Issued(w) && w.last % 2 == 1
    ensures var v := AllTurned(s, w, turns);
            forall t :: t in w.trail ==> t in v.trail && v.trail[t] == Trailed(s, t, w.trail[t], turns)
    decreases |turns|
  {
    hide Turned, Next, Issued;
    if turns != [] {
      TurnedTrails(s, w, turns[0]);
      AllTurnedTrails(s, Turned(s, w, turns[0]), turns[1..]);
    }
  }

  // ---------------------------------------------------------------- who is let in

  function AllowedIn(arrivals: seq<Arrival>): seq<SockAddr> {
    if arrivals == [] then []
    else (if arrivals[0].allowed then [arrivals[0].addr] else []) + AllowedIn(arrivals[1..])
  }

  /** How many of n allowed arrivals are accepted. */
  ghost function Admitted(s: Setup, clients: nat, n: nat): nat {
    if s.quota.None? then n
    else if clients >= s.quota.value then 0
    else if TargetIsThere(s) then Min(n, s.quota.value - clients)
    else n
  }

  lemma NewStarts(s: Setup, addr: SockAddr)
    ensures PairIn(s, Trail(addr, [])).over == None
  {
    RunStarts(s.rules, addr, s.single);
  }

  lemma ClientsMore(s: Setup, trail: map<nat, Trail>, t: nat, tr: Trail)
    requires t !in trail && PairIn(s, tr).over == None
    ensures |Clients(s, trail[t := tr])| == |Clients(s, trail)| + 1
  {
    hide PairIn;
    var was, now := Clients(s, trail), Clients(s, trail[t := tr]);
    assert t !in was && now == was + {t};
  }

  lemma NewIsClient(s: Setup, w: World, addr: SockAddr)
    requires Issued(w) && TargetIsThere(s)
    ensures |Clients(s, LetOneIn(s, w, addr).trail)| == |Clients(s, w.trail)| + 1
  {
    hide PairIn, Clients;
    NewStarts(s, addr);
    ClientsMore(s, w.trail, w.last + 1, Trail(addr, []));
  }

  /** The first n of the addresses have new pairs, under every other token after the last. */
  ghost predicate Enrolled(v: World, last: nat, addrs: seq<SockAddr>, n: nat) {
    && n <= |addrs|
    && forall i :: 0 <= i < n ==> last + 1 + 2 * i in v.trail && v.trail[last + 1 + 2 * i] == Trail(addrs[i], [])
  }

  lemma EnrolledMore(v: World, last: nat, a: SockAddr, addrs: seq<SockAddr>, n: nat)
    requires Enrolled(v, last + 2, addrs, n) && last + 1 in v.trail && v.trail[last + 1] == Trail(a, [])
    ensures Enrolled(v, last, [a] + addrs, n + 1)
  {
    var all := [a] + addrs;
    forall i | 0 <= i < n + 1
      ensures last + 1 + 2 * i in v.trail && v.trail[last + 1 + 2 * i] == Trail(all[i], [])
    {
      if i > 0 { assert (last + 2) + 1 + 2 * (i - 1) == last + 1 + 2 * i && all[i] == addrs[i - 1]; }
    }
  }

  lemma OneIn(s: Setup, w: World, addr: SockAddr)
    requires Issued(w) && w.last % 2 == 1
    ensures var u := LetOneIn(s, w, addr);
            && Issued(u) && u.last == w.last + 2 && u.strays == w.strays
            && (TargetIsThere(s) ==> w.last + 1 in u.trail && u.trail[w.last + 1] == Trail(addr, []))
            && (TargetIsThere(s) ==> |Clients(s, u.trail)| == |Clients(s, w.trail)| + 1)
            && (!TargetIsThere(s) ==> u.trail == w.trail)
  {
    if TargetIsThere(s) { NewIsClient(s, w, addr); }
    hide Clients;
  }

  /** The allowed arrivals are accepted in order while there is room, two tokens each; and each has a new
      pair, unless the single target is not there. */
  lemma {:induction false} LetInExactly(s: Setup, w: World, arrivals: seq<Arrival>)
    requires Issued(w) && w.last % 2 == 1
    ensures var v := LetIn(s, w, arrivals);
            var n := Admitted(s, |Clients(s, w.trail)|, |AllowedIn(arrivals)|);
            && v.last == w.last + 2 * n && v.strays == w.strays
            && (TargetIsThere(s) ==> Enrolled(v, w.last, AllowedIn(arrivals), n))
    decreases |arrivals|
  {
    hide Clients, Issued, Enrolled, LetOneIn;
    NoneEnrolled(LetIn(s, w, arrivals), w.last, AllowedIn(arrivals));
    if arrivals != [] && !(s.quota.Some? && |Clients(s, w.trail)| >= s.quota.value) {
      if arrivals[0].allowed {
        var u := LetOneIn(s, w, arrivals[0].addr);
        OneIn(s, w, arrivals[0].addr);
        LetInKeeps(s, u, arrivals[1..]);
        LetInExactly(s, u, arrivals[1..]);
        var n := Admitted(s, |Clients(s, u.trail)|, |AllowedIn(arrivals[1..])|);
        if TargetIsThere(s) {
          EnrolledMore(LetIn(s, w, arrivals), w.last, arrivals[0].addr, AllowedIn(arrivals[1..]), n);
        }
      } else {
        LetInExactly(s, w, arrivals[1..]);
        assert AllowedIn(arrivals) == AllowedIn(arrivals[1..]);
      }
    }
  }

  lemma NoneEnrolled(v: World, last: nat, addrs: seq<SockAddr>)
    ensures Enrolled(v, last, addrs, 0)
  {
  }

  lemma LetInStep(s: Setup, w: World, arrivals: seq<Arrival>, i: nat)
    requires i < |arrivals|
    ensures LetIn(s, w, arrivals[i..]) ==
      if s.quota.Some? && |Clients(s, w.trail)| >= s.quota.value then w
      else LetIn(s, if arrivals[i].allowed then LetOneIn(s, w, arrivals[i].addr) else w, arrivals[i + 1..])
  {
  }

  lemma NoneLeft(s: Setup, w: World, arrivals: seq<Arrival>)
    requires arrivals == []
    ensures LetIn(s, w, arrivals) == w
  {
  }

  lemma NewPair(s: Setup, a: SockAddr)
    requires s.single == None && s.quota == None
    ensures LetIn(s, World(1, map[], {}), [Arrival(a, true)]) == World(3, map[2 := Trail(a, [])], {})
  {
    var arrivals := [Arrival(a, true)];
    assert arrivals[1..] == [];
    assert LetOneIn(s, World(1, map[], {}), a) == World(3, map[2 := Trail(a, [])], {});
    assert LetIn(s, World(3, map[2 := Trail(a, [])], {}), []) == World(3, map[2 := Trail(a, [])], {});
  }

  /** Two bytes in two reads of one event. */
  const TWO_READS: SideEvent := SideEvent(true, [Data([65]), Data([66])], false, [])

  lemma TwoReadsStrand(s: Setup, a: SockAddr, b: SockAddr)
    requires s.single == None && s.rules.decide([65], a) == None
    requires s.rules.decide([66], a) == Some(b) && s.rules.connect(b)
    ensures var w := World(3, map[2 := Trail(a, [])], {});
            !Fails(w, Ready(2, TWO_READS)) && Turned(s, w, Ready(2, TWO_READS)).strays == {3}
  {
    var script := [Data([65]), Data([66])];
    var rest := script[1..];
    assert rest[0] == Data([66]);
    assert FindsTarget(s.rules, a, rest);
    assert PairIn(s, Trail(a, [])) == Accepted(None);
    assert IsOpen(s, map[2 := Trail(a, [])], 2);
  }

  /** A client whose first byte has no target, but whose second has, read in one event: the connection
      that is made has no client, and the next event on it fails. */
  lemma LaterChunkStrands(s: Setup, a: SockAddr, b: SockAddr, e: SideEvent)
    requires s.single == None && s.quota == None && s.rules.decide([65], a) == None
    requires s.rules.decide([66], a) == Some(b) && s.rules.connect(b)
    ensures var w := World(1, map[], {});
            var turns := [Incoming([Arrival(a, true)]), Ready(2, TWO_READS)];
            && NoneFails(s, w, turns) && AllTurned(s, w, turns).strays == {3}
            && !NoneFails(s, w, turns + [Ready(3, e)])
  {
    hide Turned;
    var w, first, second, third := World(1, map[], {}), Incoming([Arrival(a, true)]), Ready(2, TWO_READS), Ready(3, e);
    var v := Turned(s, w, first);
    NewPair(s, a);
    TurnedIn(s, w, [Arrival(a, true)]);
    TwoReadsStrand(s, a, b);
    var two := [first, second];
    var three := two + [third];
    assert two[1..] == [second] && [second][1..] == [];
    assert three[1..] == [second, third] && [second, third][1..] == [third];
    assert AllTurned(s, v, [second]) == Turned(s, v, second) && AllTurned(s, w, two) == AllTurned(s, v, [second]);
    assert !Fails(w, first) && !Fails(v, second);
    assert NoneFails(s, Turned(s, v, second), []);
    assert NoneFails(s, v, [second]) && NoneFails(s, w, two);
    assert !NoneFails(s, Turned(s, v, second), [third]);
    assert !NoneFails(s, v, [second, third]);
  }

  lemma TurnedIn(s: Setup, w: World, arrivals: seq<Arrival>)
    ensures Turned(s, w, Incoming(arrivals)) == LetIn(s, w, arrivals)
  {
  }

  class Relay {
    const rules: Rules
    const quota: Option<nat>
    const single: Option<SockAddr>

    var streams: map<nat, SockAddr>
    var conns: map<nat, SockAddr>
    var stat: map<nat, Interest>
    var buffer: map<nat, Backlog>
    var shutdownMe: set<nat>
    var alreadyShutdown: set<nat>
    var connToken: nat

    /** The sockets' own state: those that have returned end of stream. */
    var ended: set<nat>

    ghost var logs: map<nat, Log>
    ghost var over: map<nat, Ending>

    constructor (rules: Rules, quota: Option<nat>, single: Option<SockAddr>)
      ensures Valid(map[]) && streams == map[] && this.rules == rules && this.quota == quota && this.single == single
    {
      this.rules, this.quota, this.single := rules, quota, single;
      streams, conns, stat, buffer, shutdownMe, alreadyShutdown := map[], map[], map[], map[], {}, {};
      connToken, ended, logs, over := 1, {}, map[], map[];
    }

    // -------------------------------------------------------------- what the tables say

    ghost function Watched(t: nat): Interest
      reads `stat
    {
      if t in stat then stat[t] else NO_INTEREST
    }

    ghost function LogOf(t: nat): Log
      reads `logs
    {
      if t in logs then logs[t] else NO_LOG
    }

    ghost function SideOf(t: nat): Side
      reads this
    {
      Side(t in streams || t in conns, if t in conns then Some(conns[t]) else None, Watched(t),
           if t in buffer then Some(buffer[t]) else None, t in shutdownMe, t in alreadyShutdown, t in ended, LogOf(t))
    }

    ghost function Over(t: nat): Option<Ending>
      reads `over
    {
      if t in over then Some(over[t]) else None
    }

    /** The pair of a token, as seen from that token's socket. */
    ghost function PairOf(t: nat): Pair
      reads this
    {
      Pair(SideOf(t), SideOf(Peer(t)), Over(Client(t)))
    }

    ghost predicate Registered()
      reads `stat
    {
      forall t :: t in stat ==> stat[t] != NO_INTEREST
    }

    /** Clients have even tokens already given out, targets the odd ones next to them; nothing is said
        of tokens not yet given out; and the quota holds. */
    ghost predicate Tables()
      reads this
    {
      && Registered()
      && connToken % 2 == 1
      && (forall t :: t in streams ==> t % 2 == 0 && t < connToken)
      && (forall t :: t in conns ==> t % 2 == 1 && t - 1 in streams)
      && (forall t :: t in stat || t in buffer || t in ended || t in logs || t in over ==> t <= connToken)
      && (forall t :: t in shutdownMe || t in alreadyShutdown ==> t <= connToken)
      && (quota.Some? ==> |streams| <= quota.value)
    }

    /** A pair is a run from its acceptance; tokens without a trail are unused. */
    ghost predicate Traced(t: nat, trail: map<nat, Trail>)
      reads this
    {
      && PairOf(t) == (if t in trail then RunPair(rules, trail[t].addr, single, trail[t].events) else NO_PAIR)
      && (t in trail && t in streams ==> streams[t] == trail[t].addr)
    }

    /** trail: every pair ever accepted, with its client's address and the events it was served. */
    ghost predicate Valid(trail: map<nat, Trail>)
      reads this
    {
      && Tables()
      && (forall t :: t in trail ==> t % 2 == 0 && t <= connToken)
      && (forall t: nat :: t % 2 == 0 ==> Traced(t, trail))
    }

    /** Nothing changes but the pair of a token. */
    twostate predicate OthersSame(t: nat)
      reads this
    {
      && (forall u: nat :: u != t && u != Peer(t) ==> SideOf(u) == old(SideOf(u)))
      && (forall u: nat :: u != Client(t) ==> Over(u) == old(Over(u)))
      && (streams == old(streams) || streams == old(streams) - {Client(t)}) && connToken == old(connToken)
    }

    // -------------------------------------------------------------- interest

    method SetReadable(t: nat)
      requires Tables() && t <= connToken
      modifies `stat
      ensures SideOf(t) == old(SideOf(t)).Readable(true)
      ensures forall u: nat :: u != t ==> SideOf(u) == old(SideOf(u))
      ensures Tables()
    {
      if t in stat {
        stat := stat[t := stat[t].(readable := true)];
      } else {
        stat := stat[t := Interest(true, false)];
      }
    }

    method SetWritable(t: nat)
      requires Tables() && t <= connToken
      modifies `stat
      ensures SideOf(t) == old(SideOf(t)).Writable(true)
      ensures forall u: nat :: u != t ==> SideOf(u) == old(SideOf(u))
      ensures Tables()
    {
      if t in stat {
        stat := stat[t := stat[t].(writable := true)];
      } else {
        stat := stat[t := Interest(false, true)];
      }
    }

    method ClearReadable(t: nat)
      requires Tables() && t <= connToken
      modifies `stat
      ensures SideOf(t) == old(SideOf(t)).Readable(false)
      ensures forall u: nat :: u != t ==> SideOf(u) == old(SideOf(u))
      ensures Tables()
    {
      if t in stat {
        if stat[t] == Interest(true, false) {
          stat := stat - {t};
        } else {
          stat := stat[t := stat[t].(readable := false)];
        }
      }
    }

    method ClearWritable(t: nat)
      requires Tables() && t <= connToken
      modifies `stat
      ensures SideOf(t) == old(SideOf(t)).Writable(false)
      ensures forall u: nat :: u != t ==> SideOf(u) == old(SideOf(u))
      ensures Tables()
    {
      if t in stat {
        if stat[t] == Interest(false, true) {
          stat := stat - {t};
        } else {
          stat := stat[t := stat[t].(writable := false)];
        }
      }
    }

    // -------------------------------------------------------------- one table at a time

    method PutBacklog(t: nat, b: Backlog)
      requires Tables() && t <= connToken
      modifies `buffer
      ensures SideOf(t) == old(SideOf(t)).(backlog := Some(b))
      ensures forall u: nat :: u != t ==> SideOf(u) == old(SideOf(u))
      ensures Tables()
    {
      buffer := buffer[t := b];
    }

    method DropBacklog(t: nat)
      requires Tables() && t <= connToken
      modifies `buffer
      ensures SideOf(t) == old(SideOf(t)).(backlog := None)
      ensures forall u: nat :: u != t ==> SideOf(u) == old(SideOf(u))
      ensures Tables()
    {
      buffer := buffer - {t};
    }

    method AskShutdown(t: nat)
      requires Tables() && t <= connToken
      modifies `shutdownMe
      ensures SideOf(t) == old(SideOf(t)).(shutdownMe := true)
      ensures forall u: nat :: u != t ==> SideOf(u) == old(SideOf(u))
      ensures Tables()
    {
      shutdownMe := shutdownMe + {t};
    }

    method NoteShutdown(t: nat)
      requires Tables() && t <= connToken
      modifies `alreadyShutdown
      ensures SideOf(t) == old(SideOf(t)).(alreadyShutdown := true)
      ensures forall u: nat :: u != t ==> SideOf(u) == old(SideOf(u))
      ensures Tables()
    {
      alreadyShutdown := alreadyShutdown + {t};
    }

    /** Shutting a socket's write half leaves no trace in the tables. */
    ghost method Shutdown(t: nat)
      requires Tables() && t <= connToken
      modifies `logs
      ensures SideOf(t) == old(SideOf(t)).Shut()
      ensures forall u: nat :: u != t ==> SideOf(u) == old(SideOf(u))
      ensures Tables()
    {
      logs := logs[t := LogOf(t).(shut := true)];
    }

    /** A read returned end of stream. */
    method End(t: nat)
      requires Tables() && t <= connToken
      modifies `ended
      ensures SideOf(t) == old(SideOf(t)).(ended := true)
      ensures forall u: nat :: u != t ==> SideOf(u) == old(SideOf(u))
      ensures Tables()
    {
      ended := ended + {t};
    }

    ghost method NoteLog(t: nat, log: Log)
      requires Tables() && t <= connToken
      modifies `logs
      ensures SideOf(t) == old(SideOf(t)).(log := log)
      ensures forall u: nat :: u != t ==> SideOf(u) == old(SideOf(u))
      ensures Tables()
    {
      logs := logs[t := log];
    }

    // -------------------------------------------------------------- removal

    method DropSockets(t1: nat, t2: nat, ghost ending: Ending)
      requires Tables() && t1 in streams && t2 == t1 + 1
      modifies `streams, `conns, `over
      ensures streams == old(streams) - {t1} && over == old(over)[t1 := ending]
      ensures SideOf(t1) == old(SideOf(t1)).(open := false, to := None)
      ensures SideOf(t2) == old(SideOf(t2)).(open := false, to := None)
      ensures forall u: nat :: u != t1 && u != t2 ==> SideOf(u) == old(SideOf(u))
      ensures Tables()
    {
      FewerKeys(streams, {t1});
      streams := streams - {t1};
      conns := conns - {t2};
      over := over[t1 := ending];
    }

    method ForgetShutdown(t: nat)
      requires Tables() && t <= connToken
      modifies `shutdownMe, `alreadyShutdown
      ensures SideOf(t) == old(SideOf(t)).(shutdownMe := false, alreadyShutdown := false)
      ensures forall u: nat :: u != t ==> SideOf(u) == old(SideOf(u))
      ensures Tables()
    {
      shutdownMe := shutdownMe - {t};
      alreadyShutdown := alreadyShutdown - {t};
    }

    method Forget(t: nat)
      requires Tables() && t <= connToken
      modifies `buffer, `shutdownMe, `alreadyShutdown
      ensures SideOf(t) == old(SideOf(t)).(backlog := None, shutdownMe := false, alreadyShutdown := false)
      ensures forall u: nat :: u != t ==> SideOf(u) == old(SideOf(u))
      ensures Tables()
    {
      hide SideOf, Tables;
      DropBacklog(t);
      ForgetShutdown(t);
    }

    method RemovePair(t1: nat, t2: nat, ghost ending: Ending)
      requires Tables() && t1 in streams && t2 == t1 + 1 && t2 <= connToken
      requires t2 in conns || SideOf(t2).interest == NO_INTEREST
      modifies this
      ensures Tables() && streams == old(streams) - {t1}
      ensures over == old(over)[t1 := ending] && connToken == old(connToken)
      ensures SideOf(t1) == old(SideOf(t1)).Closed() && SideOf(t2) == old(SideOf(t2)).Closed()
      ensures forall u: nat :: u != t1 && u != t2 ==> SideOf(u) == old(SideOf(u))
    {
      hide SideOf, Tables;
      Quiet(t1);
      if t2 in conns { Quiet(t2); }
      DropSockets(t1, t2, ending);
      Forget(t1);
      Forget(t2);
    }

    method RemoveConn(tk: nat, ghost ending: Ending)
      requires Tables() && (tk in streams || tk in conns)
      requires PairOf(tk).peer.open || PairOf(tk).peer.interest == NO_INTEREST
      modifies this
      ensures Tables() && OthersSame(tk) && Client(tk) !in streams
      ensures PairOf(tk) == Removed(old(PairOf(tk)), ending)
    {
      var t1, t2 := if tk % 2 == 0 then tk else tk - 1, if tk % 2 == 0 then tk + 1 else tk;
      if t1 !in streams { return; }
      assert t1 == Client(tk) && ((tk == t1 && Peer(tk) == t2) || (tk == t2 && Peer(tk) == t1));
      assert t2 <= connToken && (t2 in conns || SideOf(t2).interest == NO_INTEREST);
      hide SideOf, Tables, Client, Peer;
      RemovePair(t1, t2, ending);
    }

    /** Deregister a socket. */
    method Quiet(t: nat)
      requires Tables() && t <= connToken
      modifies `stat
      ensures SideOf(t) == old(SideOf(t)).(interest := NO_INTEREST)
      ensures forall u: nat :: u != t ==> SideOf(u) == old(SideOf(u))
      ensures Tables()
    {
      hide SideOf, Tables;
      ClearReadable(t);
      ClearWritable(t);
    }

    // -------------------------------------------------------------- reading

    ghost predicate InUse(t: nat)
      reads this
    {
      Tame(PairOf(t))
    }

    /** Connect to a chosen target. */
    method Dial(t: nat, target: SockAddr)
      requires Tables() && t % 2 == 1 && t - 1 in streams && t <= connToken
      modifies `conns, `stat
      ensures SideOf(t) == Dialled(old(SideOf(t)), target)
      ensures forall u: nat :: u != t ==> SideOf(u) == old(SideOf(u))
      ensures Tables()
    {
      conns := conns[t := target];
      stat := stat[t := Interest(true, false)];
    }

    /** End of stream. */
    method OnEof(tk: nat) returns (gone: bool)
      requires Tables() && InUse(tk)
      modifies this
      ensures PairOf(tk) == TakeEof(old(PairOf(tk))) && (gone <==> PairOf(tk).over.Some?)
      ensures Tables() && OthersSame(tk) && (!gone ==> streams == old(streams))
    {
      InUseFacts(tk);
      var tk2 := Peer(tk);
      assert tk2 in buffer <==> SideOf(tk2).backlog.Some?;
      assert (tk2 in streams || tk2 in conns) == SideOf(tk2).open;
      hide SideOf, Tables, Peer, Client;
      End(tk);
      NoteLog(tk, SideOf(tk).log.(eof := true));
      gone := false;
      if tk2 in buffer {
        AskShutdown(tk2);
      } else if tk2 in streams || tk2 in conns {
        gone := ShutPeer(tk, tk2);
      } else {
        RemoveConn(tk, Unused);
        gone := true;
      }
    }

    method ShutPeer(tk: nat, tk2: nat) returns (gone: bool)
      requires Tables() && InUse(tk) && tk2 == Peer(tk)
      modifies this
      ensures var p := old(PairOf(tk)).(peer := old(PairOf(tk)).peer.Shut());
              PairOf(tk) ==
                if gone then Removed(p, Finished)
                else p.(peer := p.peer.Writable(false).(alreadyShutdown := true))
      ensures gone == old(SideOf(tk).alreadyShutdown)
      ensures Tables() && OthersSame(tk) && (!gone ==> streams == old(streams))
    {
      InUseFacts(tk);
      assert tk in alreadyShutdown <==> SideOf(tk).alreadyShutdown;
      hide SideOf, Tables, Peer, Client;
      Shutdown(tk2);
      gone := tk in alreadyShutdown;
      if gone {
        RemoveConn(tk, Finished);
      } else {
        ClearWritable(tk2);
        NoteShutdown(tk2);
      }
    }

    lemma InUseFacts(tk: nat)
      requires Tables() && InUse(tk)
      ensures tk <= connToken && Peer(tk) <= connToken && Peer(tk) != tk && SideOf(tk).open && Client(tk) in streams
      ensures Peer(Peer(tk)) == tk && Client(Peer(tk)) == Client(tk)
    {
    }

    /** The address of the client of a pair. */
    function ClientAddr(t: nat): SockAddr
      requires Client(t) in streams
      reads `streams
    {
      streams[Client(t)]
    }

    /** Bytes read wait for the peer. */
    method Buffer(tk: nat, bytes: seq<Byte>)
      requires Tables() && InUse(tk) && PairOf(tk).peer.open
      modifies `buffer, `stat
      ensures PairOf(tk) == Buffered(rules.cache, old(PairOf(tk)), bytes)
      ensures Tables() && OthersSame(tk)
    {
      InUseFacts(tk);
      var tk2 := Peer(tk);
      assert tk2 in buffer <==> SideOf(tk2).backlog.Some?;
      assert tk2 in buffer ==> SideOf(tk2).backlog == Some(buffer[tk2]);
      hide SideOf, Tables, Peer, Client;
      if tk2 in buffer {
        var total := buffer[tk2].total + |bytes|;
        PutBacklog(tk2, Backlog(buffer[tk2].chunks + [bytes], total));
        if total >= rules.cache { ClearReadable(tk); }
      } else {
        PutBacklog(tk2, Backlog([bytes], |bytes|));
        SetWritable(tk2);
        if |bytes| >= rules.cache { ClearReadable(tk); }
      }
    }

    /** Bytes read; the first bytes of a client choose its target. */
    method OnData(tk: nat, bytes: seq<Byte>) returns (gone: bool)
      requires Tables() && InUse(tk) && Client(tk) in streams
      modifies this
      ensures PairOf(tk) == TakeData(rules, old(ClientAddr(tk)), old(PairOf(tk)), bytes)
        && (gone <==> PairOf(tk).over.Some?)
      ensures Tables() && OthersSame(tk) && (!gone ==> streams == old(streams))
    {
      InUseFacts(tk);
      var tk2 := Peer(tk);
      assert (tk2 in streams || tk2 in conns) == SideOf(tk2).open;
      hide SideOf, Tables, Peer, Client, Buffered;
      NoteLog(tk, SideOf(tk).log.(read := SideOf(tk).log.read + bytes));
      if tk2 in streams || tk2 in conns {
        Buffer(tk, bytes);
        return false;
      }
      var target := rules.decide(bytes, ClientAddr(tk));
      if target.None? || !rules.connect(target.value) {
        RemoveConn(tk, NoTarget);
        return true;
      }
      DialPeer(tk, tk2, target.value, bytes);
      return false;
    }

    method DialPeer(tk: nat, tk2: nat, target: SockAddr, bytes: seq<Byte>)
      requires Tables() && InUse(tk) && Client(tk) in streams && tk2 == Peer(tk) && !SideOf(tk2).open
      modifies `conns, `stat, `buffer
      ensures PairOf(tk) ==
              Buffered(rules.cache, old(PairOf(tk)).(peer := Dialled(old(PairOf(tk)).peer, target)), bytes)
      ensures Tables() && OthersSame(tk)
    {
      InUseFacts(tk);
      assert tk2 % 2 == 1 && tk2 - 1 == tk && Client(tk) == tk;
      hide SideOf, Tables, Peer, Client, Buffered;
      Dial(tk2, target);
      Buffer(tk, bytes);
    }

    lemma EndedIs(t: nat)
      requires InUse(t)
      ensures (t in ended) == PairOf(t).me.ended && PairOf(t).over == None
    {
    }

    /** The read loop. It goes on for a pair that it removed for want of a target, and may then make a
        connection after all: the socket stays behind, without its client. */
    method ReadLoop(tk: nat, script: seq<ReadOutcome>) returns (stray: bool)
      requires Tables() && InUse(tk) && Client(tk) in streams
      modifies this
      ensures PairOf(tk) == ReadReady(rules, old(ClientAddr(tk)), old(PairOf(tk)), script, 0)
      ensures stray <==> Orphans(rules, old(ClientAddr(tk)), old(PairOf(tk)), script)
      ensures Tables() && OthersSame(tk)
    {
      hide TakeData, TakeEof, SideOf, Tables, Peer, Client, Tame, PairOf, FindsTarget, Target;
      var addr := ClientAddr(tk);
      var i, n := 0, 0;
      ghost var was := PairOf(tk);
      assert script[0..] == script;
      while i < |script|
        invariant 0 <= i <= |script| && n == i
        invariant Tables() && OthersSame(tk) && InUse(tk) && streams == old(streams)
        invariant i == 0 ==> PairOf(tk) == was
        invariant i > 0 ==> !Orphans(rules, addr, was, script) && (PairOf(tk).peer.open || PairOf(tk).me.ended)
        invariant ReadReady(rules, addr, was, script, 0) == ReadReady(rules, addr, PairOf(tk), script[i..], n)
      {
        assert script[i..][0] == script[i] && script[i..][1..] == script[i + 1..];
        EndedIs(tk);
        ghost var p := PairOf(tk);
        var outcome := Kernel(tk in ended, script[i]);
        i := i + 1;
        match outcome {
          case ReadBlock => return false;
          case ReadFail =>
            Broke(tk);
            return false;
          case Eof =>
            if n > 0 {
              Ended(tk);
              return false;
            }
            EofEnds(p);
            var gone := OnEof(tk);
            if gone { return false; }
            TameAfterEof(p);
          case Data(bytes) =>
            DataEnds(rules, addr, p, bytes);
            var gone := OnData(tk, bytes);
            if gone {
              stray := ReadOn(rules, addr, script[i..]);
              return;
            }
            TameAfterData(rules, addr, p, bytes);
        }
        n := n + 1;
      }
      return false;
    }

    /** An I/O error. */
    method Broke(tk: nat)
      requires Tables() && InUse(tk)
      modifies this
      ensures PairOf(tk) == Removed(old(PairOf(tk)), Broken)
      ensures Tables() && OthersSame(tk)
    {
      RemoveConn(tk, Broken);
    }

    method Ended(tk: nat)
      requires Tables() && InUse(tk)
      modifies `ended
      ensures PairOf(tk) == old(PairOf(tk)).(me := old(PairOf(tk)).me.(ended := true))
      ensures Tables() && OthersSame(tk)
    {
      InUseFacts(tk);
      hide SideOf, Tables, Peer, Client;
      End(tk);
    }

    // -------------------------------------------------------------- writing

    /** What follows a run of writes to a token that left something, or nothing. */
    ghost predicate Wrote(p: Pair, q: Pair, total: nat, r: Pushed) {
      q == AfterWrite(rules.cache, p, total, r)
    }

    /** Resume reading the peer when what waits falls below the threshold. */
    method Resume(tk2: nat, total: nat, nwritten: nat)
      requires Tables() && tk2 <= connToken && nwritten <= total
      modifies `stat
      ensures SideOf(tk2) == Resumed(rules.cache, old(SideOf(tk2)), total, nwritten)
      ensures forall u: nat :: u != tk2 ==> SideOf(u) == old(SideOf(u))
      ensures Tables()
    {
      if total >= rules.cache && total - nwritten < rules.cache { SetReadable(tk2); }
    }

    /** Something is left. */
    method Hold(tk: nat, rest: seq<seq<Byte>>, total: nat, nwritten: nat, ghost sent: seq<Byte>, ghost stop: Stop)
      requires Tables() && InUse(tk) && nwritten == |sent| <= total && (stop == Partial || stop == Blocked)
      modifies `stat, `buffer, `logs
      ensures Wrote(old(PairOf(tk)), PairOf(tk), total, Pushed(rest, sent, stop))
      ensures Tables() && OthersSame(tk)
    {
      InUseFacts(tk);
      var tk2 := Peer(tk);
      hide SideOf, Tables, Peer, Client;
      NoteLog(tk, SideOf(tk).log.(written := SideOf(tk).log.written + sent));
      Resume(tk2, total, nwritten);
      PutBacklog(tk, Backlog(rest, total - nwritten));
    }

    /** Nothing is left: shut the write half if that was asked for. */
    method Drained(tk: nat, total: nat, nwritten: nat, ghost sent: seq<Byte>)
      requires Tables() && InUse(tk) && PairOf(tk).peer.open && nwritten == |sent| <= total
      modifies this
      ensures Wrote(old(PairOf(tk)), PairOf(tk), total, Pushed([], sent, Emptied))
      ensures Tables() && OthersSame(tk)
    {
      InUseFacts(tk);
      var tk2 := Peer(tk);
      assert tk in shutdownMe <==> SideOf(tk).shutdownMe;
      hide SideOf, Tables, Peer, Client;
      NoteLog(tk, SideOf(tk).log.(written := SideOf(tk).log.written + sent));
      Resume(tk2, total, nwritten);
      ClearWritable(tk);
      if tk in shutdownMe {
        ShutSelf(tk, tk2, total);
      } else {
        DropBacklog(tk);
      }
    }

    method ShutSelf(tk: nat, tk2: nat, total: nat)
      requires Tables() && InUse(tk) && tk2 == Peer(tk) && SideOf(tk2).open
      modifies this
      ensures var p := old(PairOf(tk)).(me := old(PairOf(tk)).me.Shut().(backlog := Some(Backlog([], total))));
              PairOf(tk) == if p.peer.alreadyShutdown then Removed(p, Finished)
                            else p.(me := p.me.Writable(false).(alreadyShutdown := true))
      ensures Tables() && OthersSame(tk)
    {
      InUseFacts(tk);
      assert tk2 in alreadyShutdown <==> SideOf(tk2).alreadyShutdown;
      hide SideOf, Tables, Peer, Client;
      PutBacklog(tk, Backlog([], total));
      Shutdown(tk);
      if tk2 in alreadyShutdown {
        RemoveConn(tk, Finished);
      } else {
        ClearWritable(tk);
        NoteShutdown(tk);
      }
    }

    method Failed(tk: nat, ghost total: nat, ghost sent: seq<Byte>, ghost rest: seq<seq<Byte>>)
      requires Tables() && InUse(tk)
      modifies this
      ensures Wrote(old(PairOf(tk)), PairOf(tk), total, Pushed(rest, sent, Stop.Failed))
      ensures Tables() && OthersSame(tk)
    {
      InUseFacts(tk);
      hide SideOf, Tables, Peer, Client;
      NoteLog(tk, SideOf(tk).log.(written := SideOf(tk).log.written + sent));
      Broke(tk);
    }

    /** The write loop: chunk after chunk, then what its end calls for. */
    method WriteLoop(tk: nat, writes: seq<WriteOutcome>)
      requires Tables() && PairOk(rules.cache, PairOf(tk))
      modifies this
      ensures PairOf(tk) == WriteReady(rules.cache, old(PairOf(tk)), writes)
      ensures Tables() && OthersSame(tk)
    {
      if tk !in buffer { return; }
      var chunks, total := buffer[tk].chunks, buffer[tk].total;
      assert PairOf(tk).me.backlog == Some(Backlog(chunks, total));
      if chunks == [] { return; }
      WaitingFacts(rules.cache, PairOf(tk));
      PushConserves(chunks, writes);
      hide SideOf, Tables, Peer, Client, PairOk, Push, AfterWrite, OthersSame, Flat, NonEmpty;
      var rest, nwritten, stop;
      ghost var sent;
      rest, nwritten, sent, stop := PushChunks(chunks, writes);
      assert nwritten <= total;
      if stop.Failed? {
        Failed(tk, total, sent, rest);
      } else if stop.Emptied? {
        Drained(tk, total, nwritten, sent);
      } else {
        Hold(tk, rest, total, nwritten, sent, stop);
      }
    }

    // -------------------------------------------------------------- events

    ghost function Set(): Setup { Setup(rules, quota, single) }

    /** An event on a socket of a pair; one for a token that is not in use is skipped, and one for a
        socket without its client fails. */
    method OnEvent(tk: nat, e: SideEvent, strays: set<nat>, ghost trail: map<nat, Trail>)
      returns (ok: bool, left: set<nat>, ghost longer: map<nat, Trail>)
      requires Valid(trail)
      modifies this
      ensures ok <==> tk !in strays
      ensures ok ==> Valid(longer)
      ensures ok ==> World(connToken, longer, left) == Turned(Set(), World(old(connToken), trail, strays), Ready(tk, e))
      ensures ok && !old(tk in streams || tk in conns) ==>
                left == strays && forall u: nat :: SideOf(u) == old(SideOf(u))
      ensures ok && old(tk in streams || tk in conns) ==>
                && old(Client(tk) in streams)
                && PairOf(tk) == OnSide(rules, old(streams)[Client(tk)], old(PairOf(tk)), e)
                && (forall u: nat :: u != tk && u != Peer(tk) ==> SideOf(u) == old(SideOf(u)))
                && left == strays +
                     if e.readable && Orphans(rules, old(streams)[Client(tk)], old(PairOf(tk)), e.script)
                     then {Peer(tk)} else {}
    {
      hide SideOf, Tables, RunPair, OnSide, Live, InUse, ReadReady, IsOpen, Orphans;
      ok, left, longer := tk !in strays, strays, trail;
      if !ok { return; }
      OpenIs(tk, trail);
      if tk !in streams && tk !in conns { return; }
      InUseIs(tk, trail);
      var stray := ServeSocket(tk, e);
      if stray { left := left + {Peer(tk)}; }
      longer := Longer(trail, tk, e);
      forall u: nat | u % 2 == 0 ensures Traced(u, longer) {
        assert old(Traced(u, trail));
        if u == Client(tk) {
          RunGrows(rules, trail[u].addr, single, trail[u].events, PairEventAt(tk, e));
        } else {
          assert Peer(u) != tk && u != Peer(tk);
        }
      }
    }

    method ServeSocket(tk: nat, e: SideEvent) returns (stray: bool)
      requires Tables() && Live(rules.cache, PairOf(tk)) && InUse(tk) && Client(tk) in streams
      modifies this
      ensures stray <==> e.readable && Orphans(rules, old(ClientAddr(tk)), old(PairOf(tk)), e.script)
      ensures PairOf(tk) == OnSide(rules, old(ClientAddr(tk)), old(PairOf(tk)), e)
      ensures Tables() && OthersSame(tk)
    {
      ReadReadyKeeps(rules, ClientAddr(tk), PairOf(tk), e.script, 0);
      hide SideOf, Tables, Peer, Client, Live, ReadReady, WriteReady, Orphans;
      stray := false;
      if e.readable { stray := ReadLoop(tk, e.script); }
      if e.writable { WriteLoop(tk, e.writes); }
    }

    lemma InUseIs(tk: nat, trail: map<nat, Trail>)
      requires Valid(trail) && (tk in streams || tk in conns)
      ensures InUse(tk) && Client(tk) in streams && Client(tk) in trail && trail[Client(tk)].addr == ClientAddr(tk)
      ensures Live(rules.cache, PairOf(tk)) && PairOf(tk).over == None
      ensures PairOf(tk) == SeenFrom(tk, PairIn(Set(), trail[Client(tk)]))
    {
      var c := Client(tk);
      assert Traced(c, trail);
      RunIsOk(rules, trail[c].addr, single, trail[c].events);
      assert PairOk(rules.cache, PairOf(c));
      FlipOk(rules.cache, PairOf(c));
      assert tk == c || PairOf(tk) == PairOf(c).Flip();
    }

    // -------------------------------------------------------------- accepting

    predicate HasRoom()
      reads `streams
    {
      quota.Some? ==> |streams| < quota.value
    }

    /** One accepted connection, past the quota and the address rules. Its two tokens are spent even
        when the single target is not there. */
    method Admit(addr: SockAddr)
      requires Tables() && HasRoom()
      modifies this
      ensures Tables() && connToken == old(connToken) + 2
      ensures TargetIsThere(Set()) ==> streams == old(streams)[old(connToken) + 1 := addr]
      ensures TargetIsThere(Set()) ==> PairOf(old(connToken) + 1) == Accepted(single)
      ensures !TargetIsThere(Set()) ==> streams == old(streams) && PairOf(old(connToken) + 1) == NO_PAIR
      ensures forall u: nat :: u != old(connToken) + 1 && u != old(connToken) + 2 ==> SideOf(u) == old(SideOf(u))
      ensures over == old(over)
    {
      hide SideOf, Tables;
      Unissued(connToken + 1);
      Unissued(connToken + 2);
      var t, nt := Spend();
      if single.None? || rules.connect(single.value) {
        Enter(t, addr);
        if single.Some? { Dial(nt, single.value); }
      }
    }

    lemma Unissued(u: nat)
      requires Tables() && u > connToken
      ensures SideOf(u) == NO_SIDE && Over(u) == None && (u % 2 == 1 ==> Over(u - 1) == None || u == connToken + 1)
    {
    }

    method Spend() returns (t: nat, nt: nat)
      requires Tables()
      modifies `connToken
      ensures t == old(connToken) + 1 && nt == t + 1 && connToken == nt && t % 2 == 0
      ensures forall u: nat :: SideOf(u) == old(SideOf(u))
      ensures Tables()
    {
      t, nt := connToken + 1, connToken + 2;
      connToken := connToken + 2;
    }

    method Enter(t: nat, addr: SockAddr)
      requires Tables() && HasRoom() && t % 2 == 0 && t < connToken && SideOf(t) == NO_SIDE
      modifies `streams, `stat
      ensures SideOf(t) == Opened(NO_SIDE) && streams == old(streams)[t := addr]
      ensures forall u: nat :: u != t ==> SideOf(u) == old(SideOf(u))
      ensures Tables()
    {
      streams := streams[t := addr];
      stat := stat[t := Interest(true, false)];
    }

    /** The new pair starts its run; the others have not moved. */
    method Enrol(addr: SockAddr, ghost strays: set<nat>, ghost trail: map<nat, Trail>)
      returns (ghost longer: map<nat, Trail>)
      requires Valid(trail) && HasRoom()
      modifies this
      ensures Valid(longer)
      ensures World(connToken, longer, strays) == LetOneIn(Set(), World(old(connToken), trail, strays), addr)
    {
      hide SideOf, Tables, RunPair;
      longer := LetOneIn(Set(), World(connToken, trail, strays), addr).trail;
      ghost var t := connToken + 1;
      Unissued(t);
      IssuedBefore(trail);
      RunStarts(rules, addr, single);
      Admit(addr);
      forall u: nat | u % 2 == 0 ensures Traced(u, longer) {
        assert old(Traced(u, trail));
        assert u != t ==> u != t + 1 && Peer(u) != t && Peer(u) != t + 1;
      }
    }

    lemma IssuedBefore(trail: map<nat, Trail>)
      requires Valid(trail)
      ensures connToken % 2 == 1 && connToken + 1 !in streams && connToken + 1 !in trail
    {
    }

    /** The pairs that have not ended are those of the clients in the table. */
    lemma ClientsAre(trail: map<nat, Trail>)
      requires Valid(trail)
      ensures Clients(Set(), trail) == streams.Keys
    {
      forall t: nat ensures t in streams <==> t in Clients(Set(), trail) {
        if t % 2 == 0 { ClientIs(t, trail); } else { EvenTokens(t, trail); }
      }
    }

    lemma EvenTokens(t: nat, trail: map<nat, Trail>)
      requires Valid(trail) && t % 2 == 1
      ensures t !in streams && t !in trail
    {
    }

    lemma ClientIs(t: nat, trail: map<nat, Trail>)
      requires Valid(trail) && t % 2 == 0
      ensures t in streams <==> t in trail && PairIn(Set(), trail[t]).over == None
    {
      hide SideOf, Tables, RunPair;
      assert Traced(t, trail);
      EvenIsClient(t);
      if t in trail {
        SocketsStay(rules, trail[t].addr, single, trail[t].events);
        RunIsOk(rules, trail[t].addr, single, trail[t].events);
      }
    }

    lemma OpenIs(tk: nat, trail: map<nat, Trail>)
      requires Valid(trail)
      ensures tk in streams || tk in conns <==> IsOpen(Set(), trail, tk)
    {
      hide RunPair;
      assert Traced(Client(tk), trail);
      assert tk == Client(tk) || tk == Peer(Client(tk));
    }

    /** The accept loop. */
    method AcceptLoop(arrivals: seq<Arrival>, ghost strays: set<nat>, ghost trail: map<nat, Trail>)
      returns (ghost longer: map<nat, Trail>)
      requires Valid(trail)
      modifies this
      ensures Valid(longer)
      ensures World(connToken, longer, strays) == LetIn(Set(), World(old(connToken), trail, strays), arrivals)
    {
      hide Valid, LetOneIn, LetIn, Clients;
      longer := trail;
      var i := 0;
      ghost var result := LetIn(Set(), World(connToken, trail, strays), arrivals);
      assert arrivals[0..] == arrivals;
      while i < |arrivals|
        invariant 0 <= i <= |arrivals| && Valid(longer)
        invariant result == LetIn(Set(), World(connToken, longer, strays), arrivals[i..])
      {
        LetInStep(Set(), World(connToken, longer, strays), arrivals, i);
        ClientsAre(longer);
        if !HasRoom() { return; }
        i := i + 1;
        if !arrivals[i - 1].allowed { continue; }
        longer := Enrol(arrivals[i - 1].addr, strays, longer);
      }
      NoneLeft(Set(), World(connToken, longer, strays), arrivals[i..]);
    }

    lemma AllIssued(trail: map<nat, Trail>)
      requires Valid(trail)
      ensures Issued(World(connToken, trail, {})) && connToken % 2 == 1
    {
    }

    /** The event loop. */
    method Listen(turns: seq<Turn>, ghost trail: map<nat, Trail>) returns (ok: bool, ghost longer: map<nat, Trail>)
      requires Valid(trail)
      modifies this
      ensures ok <==> NoneFails(Set(), World(old(connToken), trail, {}), turns)
      ensures ok ==> Valid(longer)
      ensures ok ==> var w := AllTurned(Set(), World(old(connToken), trail, {}), turns);
                     connToken == w.last && longer == w.trail
      ensures ok ==> forall t :: t in trail ==> t in longer && longer[t] == Trailed(Set(), t, trail[t], turns)
    {
      AllIssued(trail);
      AllTurnedTrails(Set(), World(connToken, trail, {}), turns);
      hide Valid, LetIn, IsOpen, Longer, Strands, Trailed, Next;
      var strays := {};
      ok, longer := true, trail;
      var i := 0;
      ghost var was := World(connToken, trail, strays);
      assert turns[0..] == turns;
      while i < |turns|
        invariant 0 <= i <= |turns| && Valid(longer) && ok
        invariant AllTurned(Set(), was, turns) == AllTurned(Set(), World(connToken, longer, strays), turns[i..])
        invariant NoneFails(Set(), was, turns) == NoneFails(Set(), World(connToken, longer, strays), turns[i..])
      {
        assert turns[i..][0] == turns[i] && turns[i..][1..] == turns[i + 1..];
        match turns[i] {
          case Incoming(arrivals) => longer := AcceptLoop(arrivals, strays, longer);
          case Ready(tk, e) =>
            ok, strays, longer := OnEvent(tk, e, strays, longer);
            if !ok { return; }
        }
        i := i + 1;
      }
    }

    /** So whatever the loop was served, every pair it ever accepted has all that runs of a pair have. */
    lemma EveryPairIsIntact(trail: map<nat, Trail>, t: nat)
      requires Valid(trail) && t in trail && t % 2 == 0
      ensures var p := PairOf(t);
              && (p.over == None ==> Intact(p.me, p.peer) && Intact(p.peer, p.me))
              && p.peer.log.written <= p.me.log.read && p.me.log.written <= p.peer.log.read
              && HalfClosed(p.me, p.peer, p.over == None) && HalfClosed(p.peer, p.me, p.over == None)
              && (rules.cache >= 1 ==> Awake(rules.cache, p))
              && (t in streams <==> p.over == None)
    {
      assert Traced(t, trail);
      hide SideOf, Tables, RunPair, Intact, HalfClosed, Awake;
      StreamIntegrity(rules, trail[t].addr, single, trail[t].events);
      HalfClose(rules, trail[t].addr, single, trail[t].events);
      if rules.cache >= 1 { RunIsAwake(rules, trail[t].addr, single, trail[t].events); }
      SocketsStay(rules, trail[t].addr, single, trail[t].events);
      RunIsOk(rules, trail[t].addr, single, trail[t].events);
      EvenIsClient(t);
    }

    /** And the target of every pair is the one it is to have. */
    lemma EveryPairIsRouted(trail: map<nat, Trail>, t: nat)
      requires Valid(trail) && t in trail && t % 2 == 0 && t + 1 in conns
      ensures Some(conns[t + 1]) == Choice(rules, trail[t].addr, single, trail[t].events)
      ensures single.None? ==> rules.connect(conns[t + 1])
    {
      assert Traced(t, trail) && PairOf(t).peer == SideOf(t + 1);
      hide RunPair, Choice;
      RunIsRouted(rules, trail[t].addr, single, trail[t].events);
      RunIsOk(rules, trail[t].addr, single, trail[t].events);
    }

    lemma EvenIsClient(t: nat)
      requires Tables() && t % 2 == 0
      ensures t in streams <==> SideOf(t).open
    {
    }
  }
}
