/** Runs of the UDP forwarder: what every turn keeps; exactly when a turn can give two sessions one
    stamp; and how a session comes to be closed twice over, which the sweep cannot do. */
module UdpRuns {
  import opened Bytes
  import opened Collections
  import opened UdpTables
  import opened UdpMachine

  // ---------------------------------------------------------------- what every turn keeps

  ghost predicate Agrees(s: Setup, w: World) { Agree(s.decide, s.quota, w.x, w.marked, w.flows) }

  /** The tables agree, and only sessions that are there are marked for closing. */
  ghost predicate Sane(s: Setup, w: World) { Agrees(s, w) && forall t :: t in w.marked ==> t in w.x.token2addr }

  lemma EmptyIsSane(s: Setup)
    ensures Sane(s, EMPTY)
  {
  }

  lemma TakeOneKeeps(s: Setup, b: Book, marked: seq<nat>, addr: SockAddr, d: seq<Byte>)
    requires Agree(s.decide, s.quota, b.x, marked, b.flows)
    ensures var r := TakeOne(s.allow, s.quota, b, addr, d);
            Agree(s.decide, s.quota, r.x, marked, r.flows) && b.x.token2addr.Keys <= r.x.token2addr.Keys
  {
    if !TurnedAway(s.allow, s.quota, b.x.addr2token, addr) {
      var y, t := For(b.x, addr), TokenOf(b.x, addr);
      if addr in b.x.addr2token {
        assert t in b.x.token2addr;
      } else {
        AgreeJoined(s.decide, s.quota, b.x, marked, b.flows, addr);
        assert y.token2addr == b.x.token2addr[t := addr];
      }
      AgreeQueued(s.decide, s.quota, y, marked, b.flows, t, d);
      hide Agree;
    }
  }

  lemma {:induction false} TakeAllKeeps(s: Setup, b: Book, marked: seq<nat>, script: seq<Recv>)
    requires Agree(s.decide, s.quota, b.x, marked, b.flows)
    ensures var r := TakeAll(s.allow, s.quota, b, script);
            Agree(s.decide, s.quota, r.x, marked, r.flows) && b.x.token2addr.Keys <= r.x.token2addr.Keys
    decreases |script|
  {
    hide Agree, TakeOne;
    if script != [] && script[0].Got? {
      TakeOneKeeps(s, b, marked, script[0].from, script[0].bytes);
      TakeAllKeeps(s, TakeOne(s.allow, s.quota, b, script[0].from, script[0].bytes), marked, script[1..]);
    }
  }

  lemma TokenLives(s: Setup, w: World, t: nat)
    requires Agrees(s, w)
    ensures t in w.x.token2addr <==> t in w.x.token2life
    ensures t in w.x.waitWrite ==> t in w.x.token2addr
  {
  }

  lemma StampsLeave(x: Sessions, t: nat, n: nat)
    requires t in x.token2life
    ensures StampedTimes(x, t, n).token2addr == x.token2addr && StampedTimes(x, t, n).waitWrite == x.waitWrite
  {
    if n > 0 { StampedTimesMeans(x, t, n); }
  }

  lemma {:induction false} StampsKeep(s: Setup, w: World, t: nat, n: nat)
    requires Agrees(s, w) && t in w.x.token2life && t in w.x.token2addr
    ensures Agrees(s, w.(x := StampedTimes(w.x, t, n)))
  {
    hide Agree, Stamped;
    if n > 0 {
      StampsKeep(s, w, t, n - 1);
      StampsLeave(w.x, t, n - 1);
      AgreeStamped(s.decide, s.quota, StampedTimes(w.x, t, n - 1), w.marked, w.flows, t);
    }
  }

  lemma HearsKeeps(s: Setup, w: World, t: nat, script: seq<Recv>)
    requires Sane(s, w) && t in w.x.token2addr
    ensures Sane(s, Hears(w, t, script)) && t in Hears(w, t, script).x.token2addr
  {
    hide Agree, Stamped, StampedTimes, Payloads, ReadFails, Addressed;
    TokenLives(s, w, t);
    var n := |Payloads(script)|;
    StampsKeep(s, w, t, n);
    StampsLeave(w.x, t, n);
    AgreeMarkedToo(s.decide, s.quota, StampedTimes(w.x, t, n), w.marked, w.flows, Marks(t, ReadFails(script)));
  }

  lemma SendsKeeps(s: Setup, w: World, t: nat, outcomes: seq<SendOutcome>)
    requires Sane(s, w) && t in w.x.token2addr
    ensures Sane(s, Sends(s.decide, w, t, outcomes)) && t in Sends(s.decide, w, t, outcomes).x.token2addr
  {
    hide Agree, Stamped, SendAll;
    TokenLives(s, w, t);
    var r := SendAll(s.decide, w.x.token2addr[t], QueueIn(w.x.waitWrite, t), DstIn(w.x.token2dst, t), outcomes);
    AgreeSent(s.decide, s.quota, w.x, w.marked, w.flows, t, outcomes);
    var x, marked, flows := AfterSends(w.x, t, r), w.marked + Marks(t, r.mark),
      w.flows[t := AfterSend(FlowIn(w.flows, t), r)];
    assert marked == if r.mark then w.marked + [t] else w.marked;
    AgreeStamped(s.decide, s.quota, x, marked, flows, t);
    StampedLeaves(x, t);
  }

  lemma StampedLeaves(x: Sessions, t: nat)
    requires t in x.token2life
    ensures Stamped(x, t).token2addr == x.token2addr
  {
  }

  lemma ServedKeeps(s: Setup, w: World, e: Event)
    requires Sane(s, w) && Fine(w, e)
    ensures Sane(s, Served(s, w, e))
  {
    hide Agree, Hears, Sends, TakeAll, SendBack;
    match e
    case AtListener(_, script, _, _) => TakeAllKeeps(s, Book(w.x, w.flows), w.marked, script);
    case AtSession(t, readable, script, writable, outcomes, error) =>
      if readable { HearsKeeps(s, w, t, script); }
      var a := if readable then Hears(w, t, script) else w;
      SendsKeeps(s, a, t, outcomes);
      var b := if writable && t in a.x.waitWrite then Sends(s.decide, a, t, outcomes) else a;
      AgreeMarkedToo(s.decide, s.quota, b.x, b.marked, b.flows, Marks(t, error));
  }

  lemma {:induction false} AllServedKeeps(s: Setup, w: World, events: seq<Event>)
    requires Sane(s, w) && AllFine(s, w, events)
    ensures Sane(s, AllServed(s, w, events))
    decreases |events|
  {
    hide Sane, Served, Fine;
    if events != [] {
      ServedKeeps(s, w, events[0]);
      AllServedKeeps(s, Served(s, w, events[0]), events[1..]);
    }
  }

  lemma StartedKeeps(s: Setup, w: World, clock: nat)
    requires Sane(s, w)
    ensures Sane(s, Started(w, clock))
  {
    hide Index, Lives, Queues, Flows, WithoutAll, Limit, TurnTime;
    var v := AtTime(w, clock);
    assert Agrees(s, v);
    hide Agree;
    var gone := ToGo(v, Limit(v.x.now));
    AgreeWithout(s.decide, s.quota, v.x, w.marked, w.flows, gone);
    GoneForGood(v.x, gone);
    assert forall t :: t in w.marked ==> t in Elements(w.marked);
    AgreeUnmarked(s.decide, s.quota, WithoutAll(v.x, gone), w.marked, w.flows);
  }

  lemma {:induction false} AllTurnedKeeps(s: Setup, w: World, turns: Turns)
    requires Sane(s, w) && AllGo(s, w, turns)
    ensures Sane(s, AllTurned(s, w, turns))
    decreases |turns|
  {
    hide Sane, Started, AllServed, AllFine, CanStart;
    if turns != [] {
      StartedKeeps(s, w, turns[0].0);
      AllServedKeeps(s, Started(w, turns[0].0), turns[0].1);
      AllTurnedKeeps(s, Turned(s, w, turns[0].0, turns[0].1), turns[1..]);
    }
  }

  // ---------------------------------------------------------------- one stamp for each session

  /** The index of stamps knows every session. */
  ghost predicate Indexed(x: Sessions) {
    forall t :: t in x.token2life ==> x.token2life[t] in x.life2token && x.life2token[x.token2life[t]] == t
  }

  lemma MirrorsWhenIndexed(x: Sessions)
    requires Lives(x.token2life, x.life2token, x.token2addr.Keys)
    ensures Inverse(x.token2life, x.life2token) <==> Indexed(x)
  {
  }

  /** A session's new stamp leaves every session in the index exactly when no other session has it. */
  lemma StampNeedsFreeTime(x: Sessions, t: nat)
    requires Lives(x.token2life, x.life2token, x.token2addr.Keys) && Indexed(x) && t in x.token2addr
    ensures t in x.token2life
    ensures Indexed(Stamped(x, t)) <==> x.now !in x.life2token || x.life2token[x.now] == t
  {
    assert t in x.token2addr.Keys;
    hide Indexed, Inverse;
    MirrorsWhenIndexed(x);
    LivesMove(x.token2life, x.life2token, x.token2addr.Keys, x.now, t);
    MirrorsWhenIndexed(Stamped(x, t));
    MoveNeedsFreeValue(x.token2life, x.life2token, t, x.now);
  }

  /** The same for a new session. */
  lemma JoinNeedsFreeTime(x: Sessions, addr: SockAddr)
    requires Lives(x.token2life, x.life2token, x.token2addr.Keys) && Indexed(x) && x.tx + 1 !in x.token2addr
    ensures Indexed(Joined(x, addr)) <==> x.now !in x.life2token
  {
    assert x.tx + 1 !in x.token2addr.Keys;
    hide Indexed, Inverse, Lives;
    MirrorsWhenIndexed(x);
    JoinedLives(x, addr);
    MirrorsWhenIndexed(Joined(x, addr));
    SameKeys(x);
    AddNeedsFreeValue(x.token2life, x.life2token, x.tx + 1, x.now);
  }

  lemma SameKeys(x: Sessions)
    requires Lives(x.token2life, x.life2token, x.token2addr.Keys)
    ensures x.token2life.Keys == x.token2addr.Keys
  {
  }

  /** No stamp in use has been reached yet. */
  ghost predicate Clear(x: Sessions) { forall k :: k in x.life2token ==> k < x.now }

  ghost predicate Orderly(x: Sessions) { Indexed(x) && Clear(x) }

  lemma OrderlyStamped(x: Sessions, t: nat)
    requires Orderly(x) && t in x.token2life
    ensures Orderly(Stamped(x, t))
  {
  }

  lemma {:induction false} OrderlyStampedTimes(x: Sessions, t: nat, n: nat)
    requires Orderly(x) && t in x.token2life
    ensures Orderly(StampedTimes(x, t, n))
  {
    hide Orderly, Stamped;
    if n > 0 {
      OrderlyStampedTimes(x, t, n - 1);
      OrderlyStamped(StampedTimes(x, t, n - 1), t);
    }
  }

  lemma OrderlyTaken(s: Setup, b: Book, addr: SockAddr, d: seq<Byte>)
    requires Orderly(b.x)
    ensures Orderly(TakeOne(s.allow, s.quota, b, addr, d).x)
  {
  }

  lemma {:induction false} OrderlyTakeAll(s: Setup, b: Book, script: seq<Recv>)
    requires Orderly(b.x)
    ensures Orderly(TakeAll(s.allow, s.quota, b, script).x)
    decreases |script|
  {
    hide Orderly, TakeOne;
    if script != [] && script[0].Got? {
      OrderlyTaken(s, b, script[0].from, script[0].bytes);
      OrderlyTakeAll(s, TakeOne(s.allow, s.quota, b, script[0].from, script[0].bytes), script[1..]);
    }
  }

  lemma OrderlyHears(w: World, t: nat, script: seq<Recv>)
    requires Orderly(w.x)
    ensures Orderly(Hears(w, t, script).x)
  {
    hide Orderly, StampedTimes;
    if t in w.x.token2life { OrderlyStampedTimes(w.x, t, |Payloads(script)|); }
  }

  lemma OrderlySends(s: Setup, w: World, t: nat, outcomes: seq<SendOutcome>)
    requires Orderly(w.x)
    ensures Orderly(Sends(s.decide, w, t, outcomes).x)
  {
    hide SendAll, Stamped;
    if t in w.x.token2addr && t in w.x.token2life {
      var r := SendAll(s.decide, w.x.token2addr[t], QueueIn(w.x.waitWrite, t), DstIn(w.x.token2dst, t), outcomes);
      assert Orderly(AfterSends(w.x, t, r));
      OrderlyStamped(AfterSends(w.x, t, r), t);
    }
  }

  lemma OrderlyServed(s: Setup, w: World, e: Event)
    requires Orderly(w.x)
    ensures Orderly(Served(s, w, e).x)
  {
    hide Orderly, Hears, Sends, TakeAll;
    match e
    case AtListener(_, script, _, _) => OrderlyTakeAll(s, Book(w.x, w.flows), script);
    case AtSession(t, readable, script, _, outcomes, _) =>
      OrderlyHears(w, t, script);
      OrderlySends(s, if readable then Hears(w, t, script) else w, t, outcomes);
  }

  lemma {:induction false} OrderlyAllServed(s: Setup, w: World, events: seq<Event>)
    requires Orderly(w.x)
    ensures Orderly(AllServed(s, w, events).x)
    decreases |events|
  {
    hide Orderly, Served;
    if events != [] {
      OrderlyServed(s, w, events[0]);
      OrderlyAllServed(s, Served(s, w, events[0]), events[1..]);
    }
  }

  /** There is room for one more client, and this is one that is allowed. */
  ghost predicate Room(s: Setup, w: World, a: SockAddr) {
    s.allow(a) && a !in w.x.addr2token && (s.quota.Some? ==> |w.x.addr2token| < s.quota.value)
  }

  /** n replies of one byte. */
  function Answers(a: SockAddr, n: nat): seq<Recv> { seq(n, _ => Got(a, [0])) }

  lemma {:induction false} AnswersCount(a: SockAddr, n: nat)
    ensures |Payloads(Answers(a, n))| == n && !ReadFails(Answers(a, n))
  {
    if n > 0 {
      assert Answers(a, n)[1..] == Answers(a, n - 1);
      AnswersCount(a, n - 1);
    }
  }

  /** A new client, and n replies to it. */
  function Newcomer(a: SockAddr): Event { AtListener(true, [Got(a, [])], false, []) }

  function Replies(t: nat, a: SockAddr, n: nat): Event { AtSession(t, true, Answers(a, n), false, [], false) }

  lemma NewcomerEnters(s: Setup, w: World, a: SockAddr)
    requires Room(s, w, a)
    ensures var t, y := w.x.tx + 1, Served(s, w, Newcomer(a));
            && Fine(w, Newcomer(a)) && t in y.x.token2addr && t in y.x.token2life
            && y.x.token2life == w.x.token2life[t := w.x.now] && y.x.now == w.x.now + 1
  {
    var b := Book(w.x, w.flows);
    assert [Got(a, [])][1..] == [];
    assert TakeAll(s.allow, s.quota, b, [Got(a, [])]) == TakeOne(s.allow, s.quota, b, a, []);
  }

  lemma RepliesStamp(s: Setup, w: World, t: nat, a: SockAddr, n: nat)
    requires t in w.x.token2addr && t in w.x.token2life
    ensures var y := Served(s, w, Replies(t, a, n));
            && Fine(w, Replies(t, a, n))
            && y.x.token2life == if n == 0 then w.x.token2life else w.x.token2life[t := w.x.now + n - 1]
  {
    AnswersCount(a, n);
    hide Answers, Stamped;
    if n > 0 { StampedTimesMeans(w.x, t, n); }
  }

  lemma OwnerOf(s: Setup, w: World, k: nat)
    requires Agrees(s, w) && k in w.x.life2token
    ensures var u := w.x.life2token[k];
            u in w.x.token2life && w.x.token2life[u] == k && u != w.x.tx + 1
  {
    assert w.x.life2token[k] in w.x.token2addr.Keys;
  }

  lemma TwoEvents(s: Setup, w: World, first: Event, second: Event)
    ensures AllServed(s, w, [first, second]) == Served(s, Served(s, w, first), second)
    ensures AllFine(s, w, [first, second]) <==> Fine(w, first) && Fine(Served(s, w, first), second)
  {
    hide Served, Fine;
    var y, both, last := Served(s, w, first), [first, second], [second];
    assert both[1..] == last && last[1..] == [];
    assert AllServed(s, y, last) == Served(s, y, second) && AllServed(s, w, both) == AllServed(s, y, last);
    assert AllFine(s, y, last) == Fine(y, second) && AllFine(s, w, both) == (Fine(w, first) && AllFine(s, y, last));
  }

  lemma SharedStamp(x: Sessions, t: nat, u: nat)
    requires t in x.token2life && u in x.token2life && t != u && x.token2life[t] == x.token2life[u]
    ensures !Indexed(x)
  {
  }

  /** A stamp that has been reached already is given out a second time by one new client and enough
      replies to it, and then the index has lost a session. */
  lemma StampsCollide(s: Setup, w: World, a: SockAddr, k: nat)
    requires Agrees(s, w) && Room(s, w, a) && k in w.x.life2token && w.x.now <= k
    ensures var events := [Newcomer(a), Replies(w.x.tx + 1, a, k - w.x.now)];
            AllFine(s, w, events) && !Indexed(AllServed(s, w, events).x)
  {
    hide Agree, Agrees, Served, Fine, Newcomer, Replies, Room, Indexed;
    var t, u, n := w.x.tx + 1, w.x.life2token[k], k - w.x.now;
    var first, second := Newcomer(a), Replies(t, a, n);
    OwnerOf(s, w, k);
    NewcomerEnters(s, w, a);
    RepliesStamp(s, Served(s, w, first), t, a, n);
    TwoEvents(s, w, first, second);
    SharedStamp(Served(s, Served(s, w, first), second).x, t, u);
  }

  /** So is it by replies to another session. */
  lemma OthersCollide(s: Setup, w: World, a: SockAddr, k: nat, t: nat)
    requires Agrees(s, w) && k in w.x.life2token && w.x.now <= k && t in w.x.token2life && t != w.x.life2token[k]
    ensures var events := [Replies(t, a, k - w.x.now + 1)];
            AllFine(s, w, events) && !Indexed(AllServed(s, w, events).x)
  {
    hide Agree, Agrees, Served, Fine, Replies, Indexed;
    var e := Replies(t, a, k - w.x.now + 1);
    OwnerOf(s, w, k);
    TokenLives(s, w, t);
    RepliesStamp(s, w, t, a, k - w.x.now + 1);
    OneEvent(s, w, e);
    SharedStamp(Served(s, w, e).x, t, w.x.life2token[k]);
  }

  lemma OneEvent(s: Setup, w: World, e: Event)
    ensures AllServed(s, w, [e]) == Served(s, w, e) && (AllFine(s, w, [e]) <==> Fine(w, e))
  {
    hide Served, Fine;
    var one := [e];
    assert one[1..] == [];
    assert AllServed(s, w, one) == AllServed(s, Served(s, w, e), []);
    assert AllFine(s, Served(s, w, e), []);
  }

  /** There is at most one session. */
  ghost predicate Alone(x: Sessions) { forall t, u :: t in x.token2life && u in x.token2life ==> t == u }

  ghost predicate NoRoom(s: Setup, addr2token: map<SockAddr, nat>) {
    forall a :: s.allow(a) && a !in addr2token ==> s.quota.Some? && |addr2token| >= s.quota.value
  }

  /** A single session that nothing can be added to is in the index, whatever its stamps. */
  ghost predicate Solitary(s: Setup, x: Sessions) { Alone(x) && NoRoom(s, x.addr2token) && Indexed(x) }

  lemma SolitaryStamped(s: Setup, x: Sessions, t: nat)
    requires Solitary(s, x) && t in x.token2life
    ensures Solitary(s, Stamped(x, t))
  {
  }

  lemma {:induction false} SolitaryStampedTimes(s: Setup, x: Sessions, t: nat, n: nat)
    requires Solitary(s, x) && t in x.token2life
    ensures Solitary(s, StampedTimes(x, t, n))
  {
    hide Solitary, Stamped;
    if n > 0 {
      SolitaryStampedTimes(s, x, t, n - 1);
      SolitaryStamped(s, StampedTimes(x, t, n - 1), t);
    }
  }

  lemma SolitaryTaken(s: Setup, b: Book, addr: SockAddr, d: seq<Byte>)
    requires Solitary(s, b.x)
    ensures Solitary(s, TakeOne(s.allow, s.quota, b, addr, d).x)
  {
  }

  lemma {:induction false} SolitaryTakeAll(s: Setup, b: Book, script: seq<Recv>)
    requires Solitary(s, b.x)
    ensures Solitary(s, TakeAll(s.allow, s.quota, b, script).x)
    decreases |script|
  {
    hide Solitary, TakeOne;
    if script != [] && script[0].Got? {
      SolitaryTaken(s, b, script[0].from, script[0].bytes);
      SolitaryTakeAll(s, TakeOne(s.allow, s.quota, b, script[0].from, script[0].bytes), script[1..]);
    }
  }

  lemma SolitarySends(s: Setup, w: World, t: nat, outcomes: seq<SendOutcome>)
    requires Solitary(s, w.x)
    ensures Solitary(s, Sends(s.decide, w, t, outcomes).x)
  {
    hide SendAll, Stamped;
    if t in w.x.token2addr && t in w.x.token2life {
      var r := SendAll(s.decide, w.x.token2addr[t], QueueIn(w.x.waitWrite, t), DstIn(w.x.token2dst, t), outcomes);
      assert Solitary(s, AfterSends(w.x, t, r));
      SolitaryStamped(s, AfterSends(w.x, t, r), t);
    }
  }

  lemma SolitaryServed(s: Setup, w: World, e: Event)
    requires Solitary(s, w.x)
    ensures Solitary(s, Served(s, w, e).x)
  {
    hide Solitary, Sends, TakeAll, StampedTimes;
    match e
    case AtListener(_, script, _, _) => SolitaryTakeAll(s, Book(w.x, w.flows), script);
    case AtSession(t, readable, script, _, outcomes, _) =>
      if t in w.x.token2life { SolitaryStampedTimes(s, w.x, t, |Payloads(script)|); }
      SolitarySends(s, if readable then Hears(w, t, script) else w, t, outcomes);
  }

  lemma {:induction false} SolitaryAllServed(s: Setup, w: World, events: seq<Event>)
    requires Solitary(s, w.x)
    ensures Solitary(s, AllServed(s, w, events).x)
    decreases |events|
  {
    hide Solitary, Served;
    if events != [] {
      SolitaryServed(s, w, events[0]);
      SolitaryAllServed(s, Served(s, w, events[0]), events[1..]);
    }
  }

  /** Stamps cannot collide: none in use has been reached, or there is just one session and no room for
      another. */
  ghost predicate Safe(s: Setup, x: Sessions) { Clear(x) || (Alone(x) && NoRoom(s, x.addr2token)) }

  lemma SafeIsKept(s: Setup, w: World, events: seq<Event>)
    requires Indexed(w.x) && Safe(s, w.x)
    ensures Indexed(AllServed(s, w, events).x)
  {
    hide Indexed, AllServed, Clear, Alone, NoRoom;
    if Clear(w.x) {
      OrderlyAllServed(s, w, events);
      OrderlyIsIndexed(AllServed(s, w, events).x);
    } else {
      SolitaryAllServed(s, w, events);
    }
  }

  lemma UnsafeCollides(s: Setup, w: World) returns (events: seq<Event>)
    requires Agrees(s, w) && !Safe(s, w.x)
    ensures AllFine(s, w, events) && !Indexed(AllServed(s, w, events).x)
  {
    hide AllFine, AllServed, Agree, Agrees, Indexed;
    var k :| k in w.x.life2token && w.x.now <= k;
    if !NoRoom(s, w.x.addr2token) {
      var a :| s.allow(a) && a !in w.x.addr2token && (s.quota.Some? ==> |w.x.addr2token| < s.quota.value);
      StampsCollide(s, w, a, k);
      events := [Newcomer(a), Replies(w.x.tx + 1, a, k - w.x.now)];
    } else {
      var t, u :| t in w.x.token2life && u in w.x.token2life && t != u;
      var v := if t == w.x.life2token[k] then u else t;
      OthersCollide(s, w, UNSPECIFIED, k, v);
      events := [Replies(v, UNSPECIFIED, k - w.x.now + 1)];
    }
  }

  /** Every list of events that the loop can serve leaves the index knowing every session exactly when no
      stamp in use has been reached at the start, or there is one session at most and no room. */
  lemma EventsKeepStamps(s: Setup, w: World)
    requires Agrees(s, w) && Indexed(w.x)
    ensures (forall events :: AllFine(s, w, events) ==> Indexed(AllServed(s, w, events).x)) <==> Safe(s, w.x)
  {
    hide AllFine, AllServed, Agree, Agrees, Indexed, Safe;
    if Safe(s, w.x) {
      forall events: seq<Event> ensures Indexed(AllServed(s, w, events).x) { SafeIsKept(s, w, events); }
    } else {
      var events := UnsafeCollides(s, w);
    }
  }

  lemma OrderlyIsIndexed(x: Sessions)
    requires Orderly(x)
    ensures Indexed(x)
  {
  }

  lemma SweepKeepsIndexed(x: Sessions, gone: set<nat>)
    requires Indexed(x)
    ensures Indexed(WithoutAll(x, gone))
  {
    var y := WithoutAll(x, gone);
    forall t | t in y.token2life ensures y.token2life[t] in y.life2token && y.life2token[y.token2life[t]] == t {
      var k := x.token2life[t];
      assert forall u :: u in gone && u in x.token2life ==> x.life2token[x.token2life[u]] == u;
    }
  }

  lemma StartKeepsIndexed(w: World, clock: nat)
    requires Indexed(w.x)
    ensures Indexed(Started(w, clock).x)
  {
    hide TurnTime, Limit, WithoutAll;
    var v := AtTime(w, clock);
    SweepKeepsIndexed(v.x, ToGo(v, Limit(v.x.now)));
  }

  /** The stamps of a turn stay apart, whatever its events, exactly when every stamp left by its sweep is
      below the time it starts from: the clock, or the smallest stamp in use before the sweep; or the
      sweep leaves one session at most, and no room. */
  lemma TurnKeepsStamps(s: Setup, w: World, clock: nat)
    requires Sane(s, w) && Indexed(w.x)
    ensures var v := Started(w, clock);
            (forall events :: AllFine(s, v, events) ==> Indexed(Turned(s, w, clock, events).x)) <==>
            || (forall k :: k in v.x.life2token ==> k < TurnTime(clock, w.x.life2token.Keys))
            || (Alone(v.x) && NoRoom(s, v.x.addr2token))
  {
    hide Sane, Indexed, Started, AllFine, AllServed, Agrees, Alone, NoRoom;
    StartKeepsIndexed(w, clock);
    StartedKeeps(s, w, clock);
    SaneAgrees(s, Started(w, clock));
    StartedAt(w, clock);
    EventsKeepStamps(s, Started(w, clock));
  }

  lemma SaneAgrees(s: Setup, w: World)
    requires Sane(s, w)
    ensures Agrees(s, w)
  {
  }

  lemma StartedAt(w: World, clock: nat)
    ensures Started(w, clock).x.now == TurnTime(clock, w.x.life2token.Keys)
  {
    hide TurnTime;
  }

  /** A clock beyond every stamp in use is enough. */
  lemma LateClockIsClear(w: World, clock: nat)
    requires forall k :: k in w.x.life2token ==> k < clock
    ensures Clear(Started(w, clock).x)
  {
    hide TurnTime, Limit;
    StartedAt(w, clock);
  }

  /** Every turn of a run starts so that stamps cannot collide in it. */
  ghost predicate AllSafe(s: Setup, w: World, turns: Turns)
    decreases |turns|
  {
    turns == [] ||
    (Safe(s, Started(w, turns[0].0).x) && AllSafe(s, Turned(s, w, turns[0].0, turns[0].1), turns[1..]))
  }

  lemma {:induction false} AllTurnedIndexed(s: Setup, w: World, turns: Turns)
    requires Indexed(w.x) && AllSafe(s, w, turns)
    ensures Indexed(AllTurned(s, w, turns).x)
    decreases |turns|
  {
    hide Indexed, Started, AllServed, Safe;
    if turns != [] {
      StartKeepsIndexed(w, turns[0].0);
      SafeIsKept(s, Started(w, turns[0].0), turns[0].1);
      AllTurnedIndexed(s, Turned(s, w, turns[0].0, turns[0].1), turns[1..]);
    }
  }

  lemma WhatTablesSay(s: Setup, w: World, t: nat)
    requires Sane(s, w) && t in w.x.token2addr
    ensures var x := w.x;
            && x.token2addr[t] in x.addr2token && x.addr2token[x.token2addr[t]] == t
            && t in x.token2life && t in x.interest && (x.interest[t].writable <==> t in x.waitWrite)
            && (forall a :: a in FlowIn(w.flows, t).targets ==> DstIn(x.token2dst, t) == Some(a))
            && (t !in w.marked ==>
                 && FlowIn(w.flows, t).accepted == FlowIn(w.flows, t).sent + QueueIn(x.waitWrite, t)
                 && (FlowIn(w.flows, t).sent != [] ==>
                      DstIn(x.token2dst, t) == s.decide(FlowIn(w.flows, t).accepted[0], x.token2addr[t])))
  {
  }

  // ---------------------------------------------------------------- closed twice over

  function Count(b: bool): nat { if b then 1 else 0 }

  /** The run of sends of an event fails, or finds no target. */
  ghost predicate SendingFails(s: Setup, w: World, e: Event)
    requires e.AtSession? && e.token in w.x.token2addr
  {
    var x, t := w.x, e.token;
    e.writable
    && SendAll(s.decide, x.token2addr[t], QueueIn(x.waitWrite, t), DstIn(x.token2dst, t), e.outcomes).mark
  }

  /** For how many reasons an event marks its session for closing: its socket fails at receiving, at
      sending (or there is no target), or is reported in error. */
  ghost function Reasons(s: Setup, w: World, e: Event): nat
    requires e.AtSession? && e.token in w.x.token2addr
  {
    Count(e.readable && ReadFails(e.script)) + Count(SendingFails(s, w, e)) + Count(e.error)
  }

  lemma HearsLeaves(w: World, t: nat, script: seq<Recv>)
    requires t in w.x.token2addr && t in w.x.token2life
    ensures var a := Hears(w, t, script);
            && a.x.token2addr == w.x.token2addr && a.x.waitWrite == w.x.waitWrite && a.x.token2dst == w.x.token2dst
            && a.marked == w.marked + Marks(t, ReadFails(script)) && t in a.x.token2life
  {
    var n := |Payloads(script)|;
    if n > 0 { StampedTimesMeans(w.x, t, n); }
  }

  lemma SendsMarks(s: Setup, w: World, t: nat, outcomes: seq<SendOutcome>)
    requires t in w.x.token2addr && t in w.x.token2life
    ensures var r := SendAll(s.decide, w.x.token2addr[t], QueueIn(w.x.waitWrite, t), DstIn(w.x.token2dst, t), outcomes);
            var b := Sends(s.decide, w, t, outcomes);
            b.marked == w.marked + Marks(t, r.mark) && t in b.x.token2life
  {
    hide SendAll;
  }

  lemma MarksAdded(s: Setup, w: World, e: Event)
    requires Sane(s, w) && Fine(w, e) && e.AtSession?
    ensures var t := e.token;
            Served(s, w, e).marked == w.marked + Marks(t, e.readable && ReadFails(e.script))
              + Marks(t, SendingFails(s, w, e)) + Marks(t, e.error)
  {
    hide Sane, Hears, Sends, SendAll, QueueIn, DstIn, ReadFails;
    var t := e.token;
    SaneAgrees(s, w);
    TokenLives(s, w, t);
    HearsLeaves(w, t, e.script);
    SendsMarks(s, if e.readable then Hears(w, t, e.script) else w, t, e.outcomes);
    assert w.marked + [] == w.marked;
  }

  lemma MarksCount(a: seq<nat>, t: nat, p: bool, q: bool, r: bool)
    ensures var m := a + Marks(t, p) + Marks(t, q) + Marks(t, r);
            && a <= m && |m| == |a| + Count(p) + Count(q) + Count(r)
            && forall i :: |a| <= i < |m| ==> m[i] == t
  {
  }

  /** Each reason adds a mark. */
  lemma EventMarks(s: Setup, w: World, e: Event)
    requires Sane(s, w) && Fine(w, e) && e.AtSession?
    ensures var y := Served(s, w, e);
            && w.marked <= y.marked && |y.marked| == |w.marked| + Reasons(s, w, e)
            && forall i :: |w.marked| <= i < |y.marked| ==> y.marked[i] == e.token
  {
    hide Sane, Served, SendingFails, ReadFails, Marks, Count;
    MarksAdded(s, w, e);
    MarksCount(w.marked, e.token, e.readable && ReadFails(e.script), SendingFails(s, w, e), e.error);
  }

  /** The world after the first client's first datagram. */
  ghost function FirstClient(a: SockAddr, d: seq<Byte>, clock: nat): World {
    World(Sessions(1, clock + 1, map[a := 1], map[1 := a], {1}, map[1 := [d]], map[clock := 1], map[1 := clock], map[],
                   map[1 := Interest(true, true)]),
          map[1 := Flow([d], [], {})], [], [], [])
  }

  function Hello(a: SockAddr, d: seq<Byte>): seq<Event> { [AtListener(true, [Got(a, d)], false, [])] }

  lemma NothingToRemove(x: Sessions)
    ensures WithoutAll(x, {}) == x
  {
    assert x.token2life - {} == x.token2life && x.life2token - {} == x.life2token && x.token2addr - {} == x.token2addr;
    assert Missing(x.addr2token, {}) == x.addr2token && x.waitWrite - {} == x.waitWrite;
    assert x.token2dst - {} == x.token2dst && x.interest - {} == x.interest;
  }

  lemma NothingToGo(w: World, limit: nat)
    requires w.marked == [] && forall k :: k in w.x.life2token ==> k >= limit
    ensures ToGo(w, limit) == {} && CanSweep(w, limit) && Swept(w, limit) == w
  {
    NothingToRemove(w.x);
    assert ToGo(w, limit) == {};
    hide WithoutAll;
  }

  lemma EmptyStarts(clock: nat)
    requires LIFESPAN <= clock
    ensures CanStart(EMPTY, clock) && Started(EMPTY, clock) == EMPTY.(x := NO_SESSIONS.(now := clock))
  {
    hide Swept, CanSweep;
    NothingToGo(AtTime(EMPTY, clock), Limit(clock));
  }

  lemma FirstTaken(s: Setup, a: SockAddr, d: seq<Byte>, clock: nat)
    requires Room(s, EMPTY, a)
    ensures var w := FirstClient(a, d, clock);
            TakeOne(s.allow, s.quota, Book(NO_SESSIONS.(now := clock), map[]), a, d) == Book(w.x, w.flows)
  {
    assert [] + [d] == [d];
  }

  lemma HelloServed(s: Setup, w: World, a: SockAddr, d: seq<Byte>)
    ensures var b := TakeOne(s.allow, s.quota, Book(w.x, w.flows), a, d);
            Served(s, w, Hello(a, d)[0]) == World(b.x, b.flows, w.marked, w.back, w.answered) && Fine(w, Hello(a, d)[0])
  {
    hide TakeOne;
    var b, script := TakeOne(s.allow, s.quota, Book(w.x, w.flows), a, d), [Got(a, d)];
    assert script[1..] == [];
    assert TakeAll(s.allow, s.quota, b, []) == b && TakeAll(s.allow, s.quota, Book(w.x, w.flows), script) == b;
    assert !ReadFails([]) && !ReadFails(script);
  }

  lemma FirstTurn(s: Setup, a: SockAddr, d: seq<Byte>, clock: nat)
    requires LIFESPAN <= clock && Room(s, EMPTY, a)
    ensures TurnGoes(s, EMPTY, clock, Hello(a, d)) && Turned(s, EMPTY, clock, Hello(a, d)) == FirstClient(a, d, clock)
  {
    hide Started, CanStart, Served, AllServed, AllFine, TakeOne;
    EmptyStarts(clock);
    HelloServed(s, Started(EMPTY, clock), a, d);
    OneEvent(s, Started(EMPTY, clock), Hello(a, d)[0]);
    FirstTaken(s, a, d, clock);
  }

  /** Sending fails. */
  const SEND_FAILS: Event := AtSession(1, false, [], true, [SendFail], false)

  lemma FailedSend(s: Setup, a: SockAddr, d: seq<Byte>, clock: nat, now: nat)
    requires s.decide(d, a).Some?
    ensures var v := FirstClient(a, d, clock);
            var w := v.(x := v.x.(now := now));
            var y := Served(s, w, SEND_FAILS);
            Fine(w, SEND_FAILS) && y.marked == [1] && y.x.token2life == v.x.token2life
              && y.x.life2token == v.x.life2token
  {
    assert SendAll(s.decide, a, [d], None, [SendFail]) == Sent([], [], s.decide(d, a), true, 0) by {
      assert [d][1..] == [];
    }
  }

  lemma OneStamp(clock: nat, later: nat)
    requires clock <= later
    ensures TurnTime(later, map[clock := 1].Keys) == later
  {
    assert map[clock := 1].Keys == {clock};
    assert IsLeast(clock, {clock});
    OneTurnTime(TurnTime(later, {clock}), later, later, {clock});
  }

  lemma SecondTurn(s: Setup, a: SockAddr, d: seq<Byte>, clock: nat)
    requires LIFESPAN <= clock && s.decide(d, a).Some?
    ensures var w, later := FirstClient(a, d, clock), clock + LIFESPAN;
            var y := Turned(s, w, later, [SEND_FAILS]);
            && TurnGoes(s, w, later, [SEND_FAILS])
            && y.marked == [1] && y.x.token2life == map[1 := clock] && y.x.life2token == map[clock := 1]
  {
    hide Swept, CanSweep, TurnTime, AllServed, AllFine, Served, Fine;
    var w, later := FirstClient(a, d, clock), clock + LIFESPAN;
    OneStamp(clock, later);
    var v := w.(x := w.x.(now := later));
    assert AtTime(w, later) == v;
    NothingToGo(v, clock);
    OneEvent(s, v, SEND_FAILS);
    FailedSend(s, a, d, clock, later);
  }

  /** A session that idles with a datagram in its queue: when the lifespan has just not passed, sending
      fails, which marks the session and leaves its stamp alone; at the next turn it is both marked and
      outdated, and the sweep cannot be made. */
  lemma MarkedThenOutdated(s: Setup, a: SockAddr, d: seq<Byte>, clock: nat)
    requires LIFESPAN <= clock && Room(s, EMPTY, a) && s.decide(d, a).Some?
    ensures var turns := [(clock, Hello(a, d)), (clock + LIFESPAN, [SEND_FAILS])];
            AllGo(s, EMPTY, turns) && !CanStart(AllTurned(s, EMPTY, turns), clock + LIFESPAN + 1)
  {
    hide Turned, TurnGoes, Room;
    var first, second := (clock, Hello(a, d)), (clock + LIFESPAN, [SEND_FAILS]);
    FirstTurn(s, a, d, clock);
    SecondTurn(s, a, d, clock);
    TwoTurns(s, EMPTY, first, second);
    var w, later := AllTurned(s, EMPTY, [first, second]), clock + LIFESPAN + 1;
    hide AllTurned, AllGo, TurnTime;
    OneStamp(clock, later);
    assert 1 in w.marked;
  }

  lemma TwoTurns(s: Setup, w: World, first: (nat, seq<Event>), second: (nat, seq<Event>))
    ensures var v := Turned(s, w, first.0, first.1);
            && AllTurned(s, w, [first, second]) == Turned(s, v, second.0, second.1)
            && AllGo(s, w, [first, second]) == (TurnGoes(s, w, first.0, first.1) && TurnGoes(s, v, second.0, second.1))
  {
    hide Turned, TurnGoes;
    var v, both, last := Turned(s, w, first.0, first.1), [first, second], [second];
    assert both[1..] == last && last[1..] == [];
    assert AllTurned(s, v, last) == Turned(s, v, second.0, second.1) && AllTurned(s, w, both) == AllTurned(s, v, last);
    assert AllGo(s, v, last) == TurnGoes(s, v, second.0, second.1);
    assert AllGo(s, w, both) == (TurnGoes(s, w, first.0, first.1) && AllGo(s, v, last));
  }

  // ---------------------------------------------------------------- a clock that has not moved on

  lemma BackAtTheStamp(clock: nat, back: nat)
    requires back <= clock
    ensures TurnTime(back, map[clock := 1].Keys) == clock
  {
    assert map[clock := 1].Keys == {clock};
    assert IsLeast(clock, {clock});
    OneTurnTime(TurnTime(back, {clock}), clock, back, {clock});
  }

  lemma StaleTurn(s: Setup, a: SockAddr, d: seq<Byte>, b: SockAddr, clock: nat, back: nat)
    requires LIFESPAN <= back <= clock && a != b && s.allow(b) && (s.quota.Some? ==> 1 < s.quota.value)
    ensures var w := FirstClient(a, d, clock);
            TurnGoes(s, w, back, [Newcomer(b)]) && !Indexed(Turned(s, w, back, [Newcomer(b)]).x)
  {
    hide Swept, CanSweep, TurnTime, AllServed, AllFine, Served, Fine, Newcomer, Indexed;
    var w := FirstClient(a, d, clock);
    BackAtTheStamp(clock, back);
    var v := w.(x := w.x.(now := clock));
    assert AtTime(w, back) == v;
    NothingToGo(v, Limit(clock));
    OneEvent(s, v, Newcomer(b));
    NewcomerEnters(s, v, b);
    SharedStamp(Served(s, v, Newcomer(b)).x, 1, 2);
  }

  /** Two clients, and a clock that reads no more at the second turn than at the first: the turn starts
      from the first client's stamp, and the second client gets the same. */
  lemma StaleClockCollides(s: Setup, a: SockAddr, d: seq<Byte>, b: SockAddr, clock: nat, back: nat)
    requires LIFESPAN <= back <= clock && a != b && s.allow(a) && s.allow(b) && (s.quota.Some? ==> 1 < s.quota.value)
    ensures var turns := [(clock, Hello(a, d)), (back, [Newcomer(b)])];
            AllGo(s, EMPTY, turns) && !Indexed(AllTurned(s, EMPTY, turns).x)
  {
    hide Turned, TurnGoes, Indexed, AllTurned, AllGo;
    FirstTurn(s, a, d, clock);
    StaleTurn(s, a, d, b, clock, back);
    TwoTurns(s, EMPTY, (clock, Hello(a, d)), (back, [Newcomer(b)]));
  }
}
