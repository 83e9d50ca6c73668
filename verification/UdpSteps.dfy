/** What each step of the UDP forwarder does, table by table: a datagram of a client, an event of a
    session or of the listener, the sweep; and that steps are taken one after the other. */
module UdpSteps {
  import opened Bytes
  import opened UdpTables
  import opened UdpMachine
  import opened UdpRuns

  // ---------------------------------------------------------------- datagrams from clients

  /** A client that is not allowed, or a new one for which there is no room. */
  predicate Away(allow: SockAddr -> bool, quota: Option<nat>, x: Sessions, addr: SockAddr) {
    !allow(addr) || (addr !in x.addr2token && quota.Some? && |x.addr2token| >= quota.value)
  }

  /** What waits for a client's session, and what it has accepted; nothing without a session. */
  ghost function QueueFor(b: Book, addr: SockAddr): seq<seq<Byte>> {
    if addr in b.x.addr2token then QueueIn(b.x.waitWrite, b.x.addr2token[addr]) else []
  }

  ghost function AcceptedFrom(b: Book, addr: SockAddr): seq<seq<Byte>> {
    if addr in b.x.addr2token then FlowIn(b.flows, b.x.addr2token[addr]).accepted else []
  }

  ghost predicate BookOk(s: Setup, b: Book, marked: seq<nat>) { Agree(s.decide, s.quota, b.x, marked, b.flows) }

  /** The next token is free, and no two clients share one. */
  ghost predicate Distinct(b: Book) {
    && b.x.tx + 1 !in b.x.token2addr && b.x.tx + 1 !in b.x.waitWrite && b.x.tx + 1 !in b.flows
    && (forall a :: a in b.x.addr2token ==> b.x.addr2token[a] <= b.x.tx)
    && (forall a, c :: a in b.x.addr2token && c in b.x.addr2token && a != c ==> b.x.addr2token[a] != b.x.addr2token[c])
  }

  lemma BookIsDistinct(s: Setup, b: Book, marked: seq<nat>)
    requires BookOk(s, b, marked)
    ensures Distinct(b)
  {
    hide Lives, FlowOk;
    assert b.x.waitWrite.Keys <= b.x.token2addr.Keys;
  }

  /** What becomes of a datagram that is not turned away. */
  ghost predicate Arrived(b: Book, r: Book, addr: SockAddr, d: seq<Byte>) {
    && addr in r.x.addr2token && r.x.addr2token == b.x.addr2token[addr := r.x.addr2token[addr]]
    && r.x.addr2token[addr] == (if addr in b.x.addr2token then b.x.addr2token[addr] else b.x.tx + 1)
    && QueueFor(r, addr) == QueueFor(b, addr) + [d] && AcceptedFrom(r, addr) == AcceptedFrom(b, addr) + [d]
    && r.x.token2dst == b.x.token2dst
    && (addr in b.x.addr2token ==> r.x.token2life == b.x.token2life && r.x.now == b.x.now)
    && (addr !in b.x.addr2token ==>
         r.x.token2life == b.x.token2life[b.x.tx + 1 := b.x.now] && r.x.now == b.x.now + 1)
  }

  ghost predicate Elsewhere(b: Book, r: Book, addr: SockAddr) {
    && (forall a :: a != addr ==> (a in r.x.addr2token <==> a in b.x.addr2token))
    && (forall a :: a != addr ==> QueueFor(r, a) == QueueFor(b, a))
    && (forall a :: a != addr ==> AcceptedFrom(r, a) == AcceptedFrom(b, a))
  }

  lemma KnownJoins(s: Setup, b: Book, addr: SockAddr, d: seq<Byte>)
    requires Distinct(b) && addr in b.x.addr2token && s.allow(addr)
    ensures var r := TakeOne(s.allow, s.quota, b, addr, d);
            Arrived(b, r, addr, d) && Elsewhere(b, r, addr)
  {
  }

  lemma NewArrives(s: Setup, b: Book, addr: SockAddr, d: seq<Byte>)
    requires Distinct(b) && addr !in b.x.addr2token && !Away(s.allow, s.quota, b.x, addr)
    ensures Arrived(b, TakeOne(s.allow, s.quota, b, addr, d), addr, d)
  {
    assert [] + [d] == [d];
  }

  /** A new token concerns no client that has one already. */
  lemma OtherClients(b: Book, r: Book, addr: SockAddr, t: nat, queue: seq<seq<Byte>>, flow: Flow)
    requires r.x.addr2token == b.x.addr2token[addr := t] && r.x.waitWrite == b.x.waitWrite[t := queue]
    requires r.flows == b.flows[t := flow] && forall a :: a in b.x.addr2token ==> b.x.addr2token[a] < t
    ensures Elsewhere(b, r, addr)
  {
  }

  lemma NewTaken(s: Setup, b: Book, addr: SockAddr, d: seq<Byte>)
    requires addr !in b.x.addr2token && !Away(s.allow, s.quota, b.x, addr)
    ensures var r, t := TakeOne(s.allow, s.quota, b, addr, d), b.x.tx + 1;
            && r.x.addr2token == b.x.addr2token[addr := t]
            && r.x.waitWrite == b.x.waitWrite[t := QueueIn(b.x.waitWrite, t) + [d]]
            && r.flows == Accepted(b.flows, t, d)
  {
    hide QueueIn, FlowIn, Accepted;
  }

  lemma NewElsewhere(s: Setup, b: Book, addr: SockAddr, d: seq<Byte>)
    requires Distinct(b) && addr !in b.x.addr2token && !Away(s.allow, s.quota, b.x, addr)
    ensures Elsewhere(b, TakeOne(s.allow, s.quota, b, addr, d), addr)
  {
    hide Elsewhere, QueueIn, FlowIn, TakeOne;
    NewTaken(s, b, addr, d);
    var t := b.x.tx + 1;
    OtherClients(b, TakeOne(s.allow, s.quota, b, addr, d), addr, t, QueueIn(b.x.waitWrite, t) + [d],
                 FlowIn(b.flows, t).(accepted := FlowIn(b.flows, t).accepted + [d]));
  }

  /** A datagram of a client that is turned away changes nothing. Any other joins the queue of its
      client's session, which is the one it had, or a new one with the next token; and no other session
      changes. */
  lemma DatagramJoins(s: Setup, b: Book, marked: seq<nat>, addr: SockAddr, d: seq<Byte>)
    requires BookOk(s, b, marked)
    ensures var r := TakeOne(s.allow, s.quota, b, addr, d);
            && (Away(s.allow, s.quota, b.x, addr) ==> r == b)
            && (!Away(s.allow, s.quota, b.x, addr) ==> Arrived(b, r, addr, d))
            && Elsewhere(b, r, addr)
  {
    hide BookOk, Distinct, Arrived;
    BookIsDistinct(s, b, marked);
    if !Away(s.allow, s.quota, b.x, addr) {
      if addr in b.x.addr2token {
        KnownJoins(s, b, addr, d);
      } else {
        NewArrives(s, b, addr, d);
        NewElsewhere(s, b, addr, d);
      }
      hide Elsewhere, TakeOne;
    }
  }

  /** The datagrams of a script that come from a client, until receiving would block or fails. */
  function FromClient(script: seq<Recv>, addr: SockAddr): seq<seq<Byte>> {
    if script == [] || !script[0].Got? then []
    else (if script[0].from == addr then [script[0].bytes] else []) + FromClient(script[1..], addr)
  }

  lemma {:induction false} FullStays(s: Setup, b: Book, script: seq<Recv>)
    requires s.quota.Some? && |b.x.addr2token| >= s.quota.value
    ensures TakeAll(s.allow, s.quota, b, script).x.addr2token == b.x.addr2token
    decreases |script|
  {
    if script != [] && script[0].Got? {
      var r := TakeOne(s.allow, s.quota, b, script[0].from, script[0].bytes);
      assert r.x.addr2token == b.x.addr2token;
      hide TakeOne;
      FullStays(s, r, script[1..]);
    }
  }

  /** What a receive loop of the listener does for one client. */
  ghost predicate Delivered(s: Setup, b: Book, r: Book, script: seq<Recv>, addr: SockAddr) {
    var more := if s.allow(addr) then FromClient(script, addr) else [];
    && (addr in b.x.addr2token ==> addr in r.x.addr2token && r.x.addr2token[addr] == b.x.addr2token[addr])
    && (addr in r.x.addr2token ==>
         QueueFor(r, addr) == QueueFor(b, addr) + more && AcceptedFrom(r, addr) == AcceptedFrom(b, addr) + more)
    && (addr !in r.x.addr2token ==> more == [] || (s.quota.Some? && |r.x.addr2token| >= s.quota.value))
  }

  lemma DeliveredMore(s: Setup, b: Book, marked: seq<nat>, script: seq<Recv>, addr: SockAddr, r: Book)
    requires BookOk(s, b, marked) && script != [] && script[0].Got?
    requires var m := TakeOne(s.allow, s.quota, b, script[0].from, script[0].bytes);
             && Delivered(s, m, r, script[1..], addr)
             && (s.quota.Some? && |m.x.addr2token| >= s.quota.value ==> r.x.addr2token == m.x.addr2token)
    ensures Delivered(s, b, r, script, addr)
  {
    hide TakeOne, BookOk, QueueFor, AcceptedFrom;
    var from, d := script[0].from, script[0].bytes;
    DatagramJoins(s, b, marked, from, d);
    var rest := FromClient(script[1..], addr);
    if from == addr && !Away(s.allow, s.quota, b.x, addr) {
      Associates(QueueFor(b, addr), d, rest);
      Associates(AcceptedFrom(b, addr), d, rest);
    }
    hide Elsewhere;
    assert from != addr ==> [] + rest == rest;
  }

  lemma Associates(a: seq<seq<Byte>>, d: seq<Byte>, rest: seq<seq<Byte>>)
    ensures (a + [d]) + rest == a + ([d] + rest)
  {
  }

  /** Every client that has a session after the receive loop got exactly its own datagrams, in order; one
      that has none sent nothing that is allowed, or there is no room. */
  lemma {:induction false} ScriptJoins(s: Setup, b: Book, marked: seq<nat>, script: seq<Recv>, addr: SockAddr)
    requires BookOk(s, b, marked)
    ensures Delivered(s, b, TakeAll(s.allow, s.quota, b, script), script, addr)
    decreases |script|
  {
    hide BookOk, TakeOne;
    if script != [] && script[0].Got? {
      var m := TakeOne(s.allow, s.quota, b, script[0].from, script[0].bytes);
      BookStays(s, b, marked, script[0].from, script[0].bytes);
      ScriptJoins(s, m, marked, script[1..], addr);
      if s.quota.Some? && |m.x.addr2token| >= s.quota.value { FullStays(s, m, script[1..]); }
      DeliveredMore(s, b, marked, script, addr, TakeAll(s.allow, s.quota, b, script));
    } else {
      NothingJoins(s, b, script, addr);
    }
  }

  ghost predicate AllDelivered(s: Setup, b: Book, r: Book, script: seq<Recv>) {
    forall addr :: Delivered(s, b, r, script, addr)
  }

  lemma AllJoin(s: Setup, b: Book, marked: seq<nat>, script: seq<Recv>)
    requires BookOk(s, b, marked)
    ensures AllDelivered(s, b, TakeAll(s.allow, s.quota, b, script), script)
  {
    hide BookOk, TakeAll, Delivered;
    forall addr ensures Delivered(s, b, TakeAll(s.allow, s.quota, b, script), script, addr) {
      ScriptJoins(s, b, marked, script, addr);
    }
  }

  lemma NothingJoins(s: Setup, b: Book, script: seq<Recv>, addr: SockAddr)
    requires script == [] || !script[0].Got?
    ensures Delivered(s, b, b, script, addr)
  {
  }

  lemma BookStays(s: Setup, b: Book, marked: seq<nat>, addr: SockAddr, d: seq<Byte>)
    requires BookOk(s, b, marked)
    ensures BookOk(s, TakeOne(s.allow, s.quota, b, addr, d), marked)
  {
    hide Agree, TakeOne;
    TakeOneKeeps(s, b, marked, addr, d);
  }

  // ---------------------------------------------------------------- events of the listener

  /** An event of the listener takes its datagrams, and sends of the waiting replies what the socket takes:
      what is sent, lost and left is as `SendBackExactly` says. */
  lemma ListenerEvent(s: Setup, w: World, e: Event)
    requires Sane(s, w) && e.AtListener?
    ensures var v, r := Served(s, w, e), SendBack(w.back, e.outcomes);
            && (if e.writable then v.answered == w.answered + r.sent && v.back == r.queue
                else v.answered == w.answered && v.back == w.back)
            && v.marked == w.marked
            && AllDelivered(s, Book(w.x, w.flows), Book(v.x, v.flows), if e.readable then e.script else [])
  {
    hide Agree, TakeAll, SendBack, Delivered;
    var b, v := Book(w.x, w.flows), Served(s, w, e);
    assert e.readable ==> Book(v.x, v.flows) == TakeAll(s.allow, s.quota, b, e.script);
    var script := if e.readable then e.script else [];
    forall a ensures Delivered(s, b, Book(v.x, v.flows), script, a) {
      ScriptJoins(s, b, w.marked, e.script, a);
      NothingJoins(s, b, [], a);
    }
  }

  // ---------------------------------------------------------------- events of a session

  /** Nothing of a world but one session's own entries differs. */
  ghost predicate OthersStay(w: World, v: World, t: nat) {
    && v.x.tx == w.x.tx && v.x.addr2token == w.x.addr2token && v.x.token2addr == w.x.token2addr
    && v.x.sockets == w.x.sockets && v.answered == w.answered
    && forall u :: u != t ==>
         && QueueIn(v.x.waitWrite, u) == QueueIn(w.x.waitWrite, u) && DstIn(v.x.token2dst, u) == DstIn(w.x.token2dst, u)
         && FlowIn(v.flows, u) == FlowIn(w.flows, u) && StampIn(v.x.token2life, u) == StampIn(w.x.token2life, u)
  }

  lemma OthersStayTwice(w: World, v: World, u: World, t: nat)
    requires OthersStay(w, v, t) && OthersStay(v, u, t)
    ensures OthersStay(w, u, t)
  {
  }

  /** Reading: every reply that is not empty joins the queue of replies for the session's client; a
      session that was heard from is stamped once for each, so with the last. */
  lemma HearsExactly(w: World, t: nat, script: seq<Recv>)
    requires t in w.x.token2addr && t in w.x.token2life
    ensures var v, heard := Hears(w, t, script), Payloads(script);
            && OthersStay(w, v, t)
            && |v.back| == |w.back| + |heard| && w.back <= v.back
            && (forall i :: 0 <= i < |heard| ==> v.back[|w.back| + i] == Datagram(w.x.token2addr[t], heard[i]))
            && v.x.waitWrite == w.x.waitWrite && v.x.token2dst == w.x.token2dst && v.flows == w.flows
            && t in v.x.token2life && v.x.now == w.x.now + |heard|
            && v.x.token2life[t] == (if heard == [] then w.x.token2life[t] else w.x.now + |heard| - 1)
            && v.marked == w.marked + Marks(t, ReadFails(script))
  {
    hide Payloads, ReadFails;
    var n := |Payloads(script)|;
    if n > 0 { StampedTimesMeans(w.x, t, n); }
  }

  /** Writing: the queue, target and flow are what `SendAllExactly` says of the run of sends; a session that
      sent any bytes is stamped. */
  lemma SendsExactly(s: Setup, w: World, t: nat, outcomes: seq<SendOutcome>)
    requires t in w.x.token2addr && t in w.x.token2life
    ensures var v := Sends(s.decide, w, t, outcomes);
            var r := SendAll(s.decide, w.x.token2addr[t], QueueIn(w.x.waitWrite, t), DstIn(w.x.token2dst, t), outcomes);
            && OthersStay(w, v, t) && SentOff(w, v, t, r)
            && v.back == w.back && t in v.x.token2life
            && v.x.now == (if r.written > 0 then w.x.now + 1 else w.x.now)
            && v.x.token2life[t] == (if r.written > 0 then w.x.now else w.x.token2life[t])
            && v.marked == w.marked + Marks(t, r.mark)
  {
    hide SendAll, AfterSend, OthersStay, SentOff, Used;
    var r := SendAll(s.decide, w.x.token2addr[t], QueueIn(w.x.waitWrite, t), DstIn(w.x.token2dst, t), outcomes);
    SendsLeaves(w, t, r, Sends(s.decide, w, t, outcomes));
  }

  /** What a run of sends makes of its session's queue, target and flow. */
  ghost predicate SentOff(w: World, v: World, t: nat, r: Sent) {
    && QueueIn(v.x.waitWrite, t) == r.queue && (r.dst.Some? ==> DstIn(v.x.token2dst, t) == r.dst)
    && (r.dst.None? ==> v.x.token2dst == w.x.token2dst)
    && FlowIn(v.flows, t).sent == FlowIn(w.flows, t).sent + r.sent
    && FlowIn(v.flows, t).accepted == FlowIn(w.flows, t).accepted
  }

  lemma AfterSendsLeaves(w: World, t: nat, r: Sent, flows: map<nat, Flow>)
    requires flows == w.flows[t := AfterSend(FlowIn(w.flows, t), r)]
    ensures var v := w.(x := AfterSends(w.x, t, r), flows := flows);
            OthersStay(w, v, t) && SentOff(w, v, t, r) && v.x.token2life == w.x.token2life && v.x.now == w.x.now
  {
  }

  lemma StampedLeavesOthers(w: World, v: World, t: nat)
    requires t in w.x.token2life && v == w.(x := Stamped(w.x, t), marked := v.marked)
    ensures OthersStay(w, v, t) && v.x.token2life == w.x.token2life[t := w.x.now] && v.x.now == w.x.now + 1
    ensures v.x.waitWrite == w.x.waitWrite && v.x.token2dst == w.x.token2dst && v.flows == w.flows
  {
  }

  lemma SendsLeaves(w: World, t: nat, r: Sent, v: World)
    requires t in w.x.token2life && v == w.(x := Used(w.x, t, r), flows := v.flows, marked := v.marked)
    requires v.flows == w.flows[t := AfterSend(FlowIn(w.flows, t), r)]
    ensures OthersStay(w, v, t) && SentOff(w, v, t, r) && t in v.x.token2life
    ensures v.x.now == (if r.written > 0 then w.x.now + 1 else w.x.now)
    ensures v.x.token2life[t] == (if r.written > 0 then w.x.now else w.x.token2life[t])
  {
    hide OthersStay, AfterSends, Stamped, AfterSend;
    AfterSendsLeaves(w, t, r, v.flows);
    var a := w.(x := AfterSends(w.x, t, r), flows := v.flows);
    if r.written > 0 { StampedLeavesOthers(a, v, t); } else { SameStays(a, v, t); }
    OthersStayTwice(w, a, v, t);
  }

  /** A session's event reads if it is readable, then writes if it is writable, then marks the session if
      it is reported in error. */
  lemma SessionEvent(s: Setup, w: World, e: Event)
    requires Sane(s, w) && Fine(w, e) && e.AtSession?
    ensures var t := e.token;
            var a := if e.readable then Hears(w, t, e.script) else w;
            var b := if e.writable then Sends(s.decide, a, t, e.outcomes) else a;
            && t in w.x.token2addr && t in w.x.token2life && t in a.x.token2life && a.x.token2addr == w.x.token2addr
            && Served(s, w, e) == b.(marked := b.marked + Marks(t, e.error))
            && OthersStay(w, Served(s, w, e), t)
  {
    hide Sane, Hears, Sends, OthersStay;
    var t := e.token;
    SaneAgrees(s, w);
    TokenLives(s, w, t);
    HearsExactly(w, t, e.script);
    HearsLeaves(w, t, e.script);
    var a := if e.readable then Hears(w, t, e.script) else w;
    SendsExactly(s, a, t, e.outcomes);
    SameStays(w, w, t);
    SameStays(a, a, t);
    var b := if e.writable then Sends(s.decide, a, t, e.outcomes) else a;
    OthersStayTwice(w, a, b, t);
    SameStays(b, Served(s, w, e), t);
    OthersStayTwice(w, b, Served(s, w, e), t);
  }

  lemma SameStays(w: World, v: World, t: nat)
    requires v == w.(marked := v.marked)
    ensures OthersStay(w, v, t)
  {
  }

  // ---------------------------------------------------------------- the sweep

  /** A session is listed for closing: it is marked, or the index has a stamp below the limit for it. */
  ghost predicate Listed(w: World, t: nat, now: nat) {
    || t in w.marked
    || (now >= LIFESPAN && exists k :: k in w.x.life2token && w.x.life2token[k] == t && k < now - LIFESPAN)
  }

  lemma ListedAre(w: World, t: nat, now: nat)
    ensures t in ToGo(w.(x := w.x.(now := now)), Limit(now)) <==> Listed(w, t, now)
  {
  }

  /** What the tables say of one session is the same. */
  ghost predicate Same(w: World, v: World, t: nat) {
    && t in v.x.token2addr && t in w.x.token2addr && v.x.token2addr[t] == w.x.token2addr[t]
    && t in v.x.token2life && t in w.x.token2life && v.x.token2life[t] == w.x.token2life[t] && t in v.x.sockets
    && QueueIn(v.x.waitWrite, t) == QueueIn(w.x.waitWrite, t) && DstIn(v.x.token2dst, t) == DstIn(w.x.token2dst, t)
  }

  lemma WithoutOthers(s: Setup, w: World, gone: set<nat>, t: nat)
    requires Agrees(s, w)
    ensures var v := w.(x := WithoutAll(w.x, gone));
            && (t in v.x.token2addr <==> t in w.x.token2addr && t !in gone)
            && (t in v.x.token2addr ==> Same(w, v, t))
  {
    hide Missing, StampsIn, Flows, Queues;
    TokenLives(s, w, t);
    assert t in w.x.token2addr ==> t in w.x.sockets;
    hide Agrees;
  }

  /** A turn starts with exactly the sessions that were not listed, at the turn's time; what the tables say
      of them is as it was. */
  lemma SweptExactly(s: Setup, w: World, clock: nat, t: nat)
    requires Sane(s, w)
    ensures var v, now := Started(w, clock), TurnTime(clock, w.x.life2token.Keys);
            && (t in v.x.token2addr <==> t in w.x.token2addr && !Listed(w, t, now))
            && (t in v.x.token2addr ==> Same(w, v, t))
            && v.flows == w.flows && v.back == w.back && v.answered == w.answered && v.marked == [] && v.x.now == now
  {
    hide TurnTime, Agree, WithoutAll, Listed, ToGo;
    var now := TurnTime(clock, w.x.life2token.Keys);
    ListedAre(w, t, now);
    var v := AtTime(w, clock);
    NowIsNoMatter(s, w, clock);
    WithoutOthers(s, v, ToGo(v, Limit(now)), t);
    StartedAt(w, clock);
  }

  lemma NowIsNoMatter(s: Setup, w: World, clock: nat)
    requires Sane(s, w)
    ensures Agrees(s, AtTime(w, clock))
  {
    hide TurnTime;
  }

  // ---------------------------------------------------------------- one after the other

  lemma {:induction false} EventsCompose(s: Setup, w: World, a: seq<Event>, b: seq<Event>)
    ensures AllServed(s, w, a + b) == AllServed(s, AllServed(s, w, a), b)
    ensures AllFine(s, w, a + b) <==> AllFine(s, w, a) && AllFine(s, AllServed(s, w, a), b)
    decreases |a|
  {
    hide Served, Fine;
    if a == [] {
      assert a + b == b;
    } else {
      assert (a + b)[0] == a[0] && (a + b)[1..] == a[1..] + b;
      EventsCompose(s, Served(s, w, a[0]), a[1..], b);
    }
  }

  /** Events, and turns, are taken one after the other, each exactly once. */
  lemma {:induction false} TurnsCompose(s: Setup, w: World, a: Turns, b: Turns)
    ensures AllTurned(s, w, a + b) == AllTurned(s, AllTurned(s, w, a), b)
    ensures AllGo(s, w, a + b) <==> AllGo(s, w, a) && AllGo(s, AllTurned(s, w, a), b)
    decreases |a|
  {
    hide Turned, TurnGoes;
    if a == [] {
      assert a + b == b;
    } else {
      assert (a + b)[0] == a[0] && (a + b)[1..] == a[1..] + b;
      TurnsCompose(s, Turned(s, w, a[0].0, a[0].1), a[1..], b);
    }
  }

  lemma OneTurn(s: Setup, w: World, clock: nat, events: seq<Event>)
    ensures AllTurned(s, w, [(clock, events)]) == AllServed(s, Started(w, clock), events)
    ensures AllGo(s, w, [(clock, events)]) <==> CanStart(w, clock) && AllFine(s, Started(w, clock), events)
  {
    hide AllServed, Started, CanStart, AllFine;
    var one := [(clock, events)];
    var v := Turned(s, w, clock, events);
    assert one[1..] == [] && AllTurned(s, v, []) == v && AllGo(s, v, []);
  }
}
