/** The UDP forwarder as a machine on values: what it takes for its seven tables to agree, and what
    sweeps, events and turns do to them. */
module UdpMachine {
  import opened Bytes
  import opened Collections
  import opened UdpTables

  // ---------------------------------------------------------------- what it takes for the tables to agree

  ghost predicate Index(addr2token: map<SockAddr, nat>, token2addr: map<nat, SockAddr>, sockets: set<nat>, tx: nat) {
    && Inverse(addr2token, token2addr)
    && sockets == token2addr.Keys
    && (forall t :: t in token2addr ==> 1 <= t <= tx)
  }

  /** Every session has a stamp, and what the index of stamps says is so. That it knows every session is
      another matter: two that get one stamp share an entry. */
  ghost predicate Lives(token2life: map<nat, nat>, life2token: map<nat, nat>, tokens: set<nat>) {
    && token2life.Keys == tokens
    && (forall k :: k in life2token ==> life2token[k] in token2life && token2life[life2token[k]] == k)
  }

  /** A session has a queue entry, never an empty one, exactly while its socket is watched for writing. */
  ghost predicate Queues(waitWrite: map<nat, seq<seq<Byte>>>, token2dst: map<nat, SockAddr>,
                         interest: map<nat, Interest>,
                         tokens: set<nat>) {
    && waitWrite.Keys <= tokens && token2dst.Keys <= tokens && interest.Keys == tokens
    && (forall t :: t in waitWrite ==> waitWrite[t] != [])
    && (forall t :: t in interest ==> interest[t] == Interest(true, t in waitWrite))
  }

  function QueueIn(waitWrite: map<nat, seq<seq<Byte>>>,
                   t: nat): seq<seq<Byte>> { if t in waitWrite then waitWrite[t] else [] }

  function DstIn(token2dst: map<nat, SockAddr>,
                 t: nat): Option<SockAddr> { if t in token2dst then Some(token2dst[t]) else None }

  ghost function FlowIn(flows: map<nat, Flow>, t: nat): Flow { if t in flows then flows[t] else NO_FLOW }

  ghost predicate Flows(decide: Decide, token2addr: map<nat, SockAddr>, marked: seq<nat>,
                        waitWrite: map<nat, seq<seq<Byte>>>,
                        token2dst: map<nat, SockAddr>, flows: map<nat, Flow>, tx: nat)
  {
    && (forall t :: t in flows ==> t <= tx)
    && (forall t :: t in token2addr ==>
          FlowOk(decide, token2addr[t], t in marked, QueueIn(waitWrite, t), DstIn(token2dst, t), FlowIn(flows, t)))
  }

  lemma IndexAdd(addr2token: map<SockAddr, nat>, token2addr: map<nat, SockAddr>, sockets: set<nat>, tx: nat,
                 addr: SockAddr)
    requires Index(addr2token, token2addr, sockets, tx) && addr !in addr2token
    ensures var t := tx + 1;
            t !in token2addr && Index(addr2token[addr := t], token2addr[t := addr], sockets + {t}, t)
  {
  }

  lemma LivesAdd(token2life: map<nat, nat>, life2token: map<nat, nat>, tokens: set<nat>, now: nat, t: nat)
    requires Lives(token2life, life2token, tokens) && t !in tokens
    ensures Lives(token2life[t := now], life2token[now := t], tokens + {t})
  {
  }

  lemma LivesMove(token2life: map<nat, nat>, life2token: map<nat, nat>, tokens: set<nat>, now: nat, t: nat)
    requires Lives(token2life, life2token, tokens) && t in tokens
    ensures Lives(token2life[t := now], (life2token - {token2life[t]})[now := t], tokens)
  {
  }

  /** The session tables, all together. */
  datatype Sessions = Sessions(
    tx: nat, now: nat, addr2token: map<SockAddr, nat>, token2addr: map<nat, SockAddr>, sockets: set<nat>,
    waitWrite: map<nat, seq<seq<Byte>>>, life2token: map<nat, nat>, token2life: map<nat, nat>,
    token2dst: map<nat, SockAddr>, interest: map<nat, Interest>)

  ghost predicate Agree(decide: Decide, quota: Option<nat>, x: Sessions, marked: seq<nat>, flows: map<nat, Flow>) {
    && Index(x.addr2token, x.token2addr, x.sockets, x.tx)
    && (quota.Some? ==> |x.addr2token| <= quota.value)
    && Lives(x.token2life, x.life2token, x.token2addr.Keys)
    && Queues(x.waitWrite, x.token2dst, x.interest, x.token2addr.Keys)
    && Flows(decide, x.token2addr, marked, x.waitWrite, x.token2dst, flows, x.tx)
  }

  /** The tables without a session. */
  ghost function Without(x: Sessions, t: nat): Sessions
    requires t in x.token2addr && t in x.token2life
  {
    x.(token2life := x.token2life - {t}, life2token := x.life2token - {x.token2life[t]},
       token2addr := x.token2addr - {t}, addr2token := x.addr2token - {x.token2addr[t]}, sockets := x.sockets - {t},
       waitWrite := x.waitWrite - {t}, token2dst := x.token2dst - {t}, interest := x.interest - {t})
  }

  /** A session is used: its stamp moves to the present. */
  ghost function Stamped(x: Sessions, t: nat): (y: Sessions)
    requires t in x.token2life
    ensures t in y.token2life
  {
    x.(token2life := x.token2life[t := x.now], life2token := (x.life2token - {x.token2life[t]})[x.now := t],
       now := x.now + 1)
  }

  ghost function StampedTimes(x: Sessions, t: nat, n: nat): (y: Sessions)
    requires t in x.token2life
    ensures t in y.token2life
  {
    if n == 0 then x else Stamped(StampedTimes(x, t, n - 1), t)
  }

  /** However often a session is used, it ends with the last stamp, and only the clock moved besides. */
  lemma {:induction false} StampedTimesMeans(x: Sessions, t: nat, n: nat)
    requires t in x.token2life && n > 0
    ensures var y := StampedTimes(x, t, n);
            && y.token2life == x.token2life[t := x.now + n - 1] && y.now == x.now + n
            && x.now + n - 1 in y.life2token && y.life2token[x.now + n - 1] == t
            && y == x.(token2life := y.token2life, life2token := y.life2token, now := y.now)
  {
    if n > 1 {
      StampedTimesMeans(x, t, n - 1);
    }
  }

  lemma AgreeStamped(decide: Decide, quota: Option<nat>, x: Sessions, marked: seq<nat>, flows: map<nat, Flow>, t: nat)
    requires Agree(decide, quota, x, marked, flows) && t in x.token2addr
    ensures t in x.token2life && Agree(decide, quota, Stamped(x, t), marked, flows)
  {
    LivesMove(x.token2life, x.life2token, x.token2addr.Keys, x.now, t);
    assert t in x.token2life;
    hide Index, Lives, Queues, Flows;
  }

  /** A session for a new client, with the next token. */
  ghost function Joined(x: Sessions, addr: SockAddr): Sessions {
    Entered(x, x.tx + 1, addr)
  }

  ghost function Entered(x: Sessions, t: nat, addr: SockAddr): Sessions {
    x.(tx := t, addr2token := x.addr2token[addr := t], token2addr := x.token2addr[t := addr],
       sockets := x.sockets + {t},
       token2life := x.token2life[t := x.now], life2token := x.life2token[x.now := t], now := x.now + 1,
       interest := x.interest[t := Interest(true, false)])
  }

  lemma JoinedIs(x: Sessions, y: Sessions, addr: SockAddr)
    requires y.tx == x.tx + 1 && y.now == x.now + 1 && y.waitWrite == x.waitWrite && y.token2dst == x.token2dst
    requires y.addr2token == x.addr2token[addr := y.tx]
    requires y.token2addr == x.token2addr[y.tx := addr] && y.sockets == x.sockets + {y.tx}
    requires y.token2life == x.token2life[y.tx := x.now] && y.life2token == x.life2token[x.now := y.tx]
    requires y.interest == x.interest[y.tx := Interest(true, false)]
    ensures y == Joined(x, addr)
  {
  }

  lemma JoinedIndex(x: Sessions, addr: SockAddr)
    requires Index(x.addr2token, x.token2addr, x.sockets, x.tx) && addr !in x.addr2token
    ensures var y := Joined(x, addr);
            Index(y.addr2token, y.token2addr, y.sockets, y.tx) && y.tx !in x.token2addr.Keys
  {
    hide Index;
    IndexAdd(x.addr2token, x.token2addr, x.sockets, x.tx, addr);
  }

  lemma JoinedSize(x: Sessions, addr: SockAddr)
    requires addr !in x.addr2token
    ensures |Joined(x, addr).addr2token| == |x.addr2token| + 1
  {
  }

  lemma JoinedLives(x: Sessions, addr: SockAddr)
    requires Lives(x.token2life, x.life2token, x.token2addr.Keys) && x.tx + 1 !in x.token2addr.Keys
    ensures var y := Joined(x, addr);
            Lives(y.token2life, y.life2token, y.token2addr.Keys)
  {
    hide Lives;
    LivesAdd(x.token2life, x.life2token, x.token2addr.Keys, x.now, x.tx + 1);
    KeysOfAdd(x.token2addr, x.tx + 1, addr);
  }

  lemma JoinedQueues(x: Sessions, addr: SockAddr)
    requires Queues(x.waitWrite, x.token2dst, x.interest, x.token2addr.Keys) && x.tx + 1 !in x.token2addr.Keys
    ensures var y := Joined(x, addr);
            Queues(y.waitWrite, y.token2dst, y.interest, y.token2addr.Keys) && y.tx !in x.waitWrite
              && y.tx !in x.token2dst
  {
    var t, tokens := x.tx + 1, x.token2addr.Keys;
    KeysOfAdd(x.token2addr, t, addr);
    KeysOfAdd(x.interest, t, Interest(true, false));
    assert t !in x.waitWrite.Keys && t !in x.token2dst.Keys;
  }

  lemma JoinedFlows(decide: Decide, x: Sessions, marked: seq<nat>, flows: map<nat, Flow>, addr: SockAddr)
    requires Flows(decide, x.token2addr, marked, x.waitWrite, x.token2dst, flows, x.tx)
    requires x.tx + 1 !in x.waitWrite && x.tx + 1 !in x.token2dst
    ensures var y := Joined(x, addr);
            Flows(decide, y.token2addr, marked, y.waitWrite, y.token2dst, flows, y.tx)
  {
    assert FlowOk(decide, addr, false, [], None, NO_FLOW) by { assert [] + [] == NO_FLOW.accepted; }
  }

  lemma AgreeJoined(decide: Decide, quota: Option<nat>, x: Sessions, marked: seq<nat>, flows: map<nat, Flow>,
                    addr: SockAddr)
    requires Agree(decide, quota, x, marked, flows) && addr !in x.addr2token
      && (quota.Some? ==> |x.addr2token| < quota.value)
    ensures Agree(decide, quota, Joined(x, addr), marked, flows)
    ensures x.tx + 1 !in x.token2addr && x.tx + 1 !in x.waitWrite
  {
    assert Joined(x, addr).tx == x.tx + 1;
    hide Index, Lives, Queues, Flows, Joined;
    JoinedIndex(x, addr);
    JoinedSize(x, addr);
    JoinedLives(x, addr);
    JoinedQueues(x, addr);
    JoinedFlows(decide, x, marked, flows, addr);
  }

  /** A datagram joins a session's queue, and its socket is watched for writing. */
  ghost function Queued(x: Sessions, t: nat, d: seq<Byte>): Sessions {
    x.(waitWrite := x.waitWrite[t := QueueIn(x.waitWrite, t) + [d]], interest := x.interest[t := Interest(true, true)])
  }

  ghost function Accepted(flows: map<nat, Flow>, t: nat, d: seq<Byte>): map<nat, Flow> {
    flows[t := FlowIn(flows, t).(accepted := FlowIn(flows, t).accepted + [d])]
  }

  lemma AgreeQueued(decide: Decide, quota: Option<nat>, x: Sessions, marked: seq<nat>, flows: map<nat, Flow>, t: nat,
                    d: seq<Byte>)
    requires Agree(decide, quota, x, marked, flows) && t in x.token2addr
    ensures Agree(decide, quota, Queued(x, t, d), marked, Accepted(flows, t, d))
  {
    AcceptedFlow(decide, x.token2addr[t], t in marked, QueueIn(x.waitWrite, t), DstIn(x.token2dst, t), FlowIn(flows, t),
                 d);
    assert t <= x.tx;
    hide Index, Lives, Queues, Flows, FlowOk;
    QueuedQueues(x, t, d);
    QueuedFlows(decide, x, marked, flows, t, d);
  }

  lemma QueuedQueues(x: Sessions, t: nat, d: seq<Byte>)
    requires Queues(x.waitWrite, x.token2dst, x.interest, x.token2addr.Keys) && t in x.token2addr
    ensures var y := Queued(x, t, d);
            Queues(y.waitWrite, y.token2dst, y.interest, x.token2addr.Keys)
  {
    var y := Queued(x, t, d);
    assert t in x.token2addr.Keys;
    assert y.interest.Keys == x.interest.Keys;
    assert y.waitWrite.Keys == x.waitWrite.Keys + {t};
  }

  lemma QueuedFlows(decide: Decide, x: Sessions, marked: seq<nat>, flows: map<nat, Flow>, t: nat, d: seq<Byte>)
    requires Flows(decide, x.token2addr, marked, x.waitWrite, x.token2dst, flows, x.tx)
    requires t in x.token2addr && t <= x.tx
    requires FlowOk(decide, x.token2addr[t], t in marked, QueueIn(x.waitWrite, t) + [d], DstIn(x.token2dst, t),
                    FlowIn(flows, t).(accepted := FlowIn(flows, t).accepted + [d]))
    ensures var y := Queued(x, t, d);
            Flows(decide, y.token2addr, marked, y.waitWrite, y.token2dst, Accepted(flows, t, d), y.tx)
  {
    hide FlowOk;
  }

  /** What a run of sends leaves of a session. */
  ghost function AfterSends(x: Sessions, t: nat, r: Sent): Sessions {
    x.(waitWrite := if r.queue == [] then x.waitWrite - {t} else x.waitWrite[t := r.queue],
       token2dst := if r.dst.Some? then x.token2dst[t := r.dst.value] else x.token2dst,
       interest := x.interest[t := Interest(true, r.queue != [])])
  }

  /** A session that sent anything counts as used. */
  ghost function Used(x: Sessions, t: nat, r: Sent): Sessions
    requires t in x.token2life
  {
    if r.written > 0 then Stamped(AfterSends(x, t, r), t) else AfterSends(x, t, r)
  }

  lemma AgreeSent(decide: Decide, quota: Option<nat>, x: Sessions, marked: seq<nat>, flows: map<nat, Flow>, t: nat,
                  outcomes: seq<SendOutcome>)
    requires Agree(decide, quota, x, marked, flows) && t in x.token2addr
    ensures var r := SendAll(decide, x.token2addr[t], QueueIn(x.waitWrite, t), DstIn(x.token2dst, t), outcomes);
            Agree(decide, quota, AfterSends(x, t, r), if r.mark then marked + [t] else marked,
                  flows[t := AfterSend(FlowIn(flows, t), r)])
  {
    var addr, queue, dst := x.token2addr[t], QueueIn(x.waitWrite, t), DstIn(x.token2dst, t);
    var r := SendAll(decide, addr, queue, dst, outcomes);
    SentFlow(decide, addr, t in marked, queue, dst, FlowIn(flows, t), outcomes);
    SendAllConserves(decide, addr, queue, dst, outcomes);
    assert t <= x.tx;
    hide Index, Lives, FlowOk, SendAll, AfterSend;
    SentQueues(x, t, r);
    SentFlows(decide, x, marked, flows, t, r);
    hide Queues, Flows;
  }

  lemma SentQueues(x: Sessions, t: nat, r: Sent)
    requires Queues(x.waitWrite, x.token2dst, x.interest, x.token2addr.Keys) && t in x.token2addr
    ensures var y := AfterSends(x, t, r);
            Queues(y.waitWrite, y.token2dst, y.interest, x.token2addr.Keys)
  {
    var y := AfterSends(x, t, r);
    assert t in x.token2addr.Keys;
    assert y.interest.Keys == x.interest.Keys;
    assert y.waitWrite.Keys <= x.waitWrite.Keys + {t};
    assert y.token2dst.Keys <= x.token2dst.Keys + {t};
  }

  lemma SentFlows(decide: Decide, x: Sessions, marked: seq<nat>, flows: map<nat, Flow>, t: nat, r: Sent)
    requires Flows(decide, x.token2addr, marked, x.waitWrite, x.token2dst, flows, x.tx)
    requires t in x.token2addr && t <= x.tx
    requires t in x.token2dst ==> r.dst == Some(x.token2dst[t])
    requires FlowOk(decide, x.token2addr[t], t in marked || r.mark, r.queue, r.dst, AfterSend(FlowIn(flows, t), r))
    ensures var y := AfterSends(x, t, r);
            Flows(decide, y.token2addr, if r.mark then marked + [t] else marked, y.waitWrite, y.token2dst,
                  flows[t := AfterSend(FlowIn(flows, t), r)], y.tx)
  {
    hide FlowOk, AfterSend;
    var y := AfterSends(x, t, r);
    assert QueueIn(y.waitWrite, t) == r.queue && DstIn(y.token2dst, t) == r.dst;
  }

  /** Marking a session for closing takes claims about it away. */
  lemma AgreeMarked(decide: Decide, quota: Option<nat>, x: Sessions, marked: seq<nat>, flows: map<nat, Flow>, t: nat)
    requires Agree(decide, quota, x, marked, flows)
    ensures Agree(decide, quota, x, marked + [t], flows)
  {
    hide Index, Lives, Queues;
  }

  /** All that datagrams from clients change. */
  datatype Book = Book(x: Sessions, flows: map<nat, Flow>)

  /** The tables once a client has a session. */
  ghost function For(x: Sessions, addr: SockAddr): Sessions { if addr in x.addr2token then x else Joined(x, addr) }

  ghost function TokenOf(x: Sessions,
                         addr: SockAddr): nat { if addr in x.addr2token then x.addr2token[addr] else x.tx + 1 }

  /** Dropped: a client that is not allowed, or a new one when there is no room. */
  predicate TurnedAway(allow: SockAddr -> bool, quota: Option<nat>, addr2token: map<SockAddr, nat>, addr: SockAddr) {
    !allow(addr) || (addr !in addr2token && quota.Some? && |addr2token| >= quota.value)
  }

  ghost function TakeOne(allow: SockAddr -> bool, quota: Option<nat>, b: Book, addr: SockAddr, d: seq<Byte>): Book {
    if TurnedAway(allow, quota, b.x.addr2token, addr) then b
    else Book(Queued(For(b.x, addr), TokenOf(b.x, addr), d), Accepted(b.flows, TokenOf(b.x, addr), d))
  }

  ghost function TakeAll(allow: SockAddr -> bool, quota: Option<nat>, b: Book, script: seq<Recv>): Book
    decreases |script|
  {
    if script == [] || !script[0].Got? then b
    else TakeAll(allow, quota, TakeOne(allow, quota, b, script[0].from, script[0].bytes), script[1..])
  }

  /** Once the marked sessions are gone, the rest keep their claims. */
  lemma AgreeUnmarked(decide: Decide, quota: Option<nat>, x: Sessions, marked: seq<nat>, flows: map<nat, Flow>)
    requires Agree(decide, quota, x, marked, flows) && forall t :: t in marked ==> t !in x.token2addr
    ensures Agree(decide, quota, x, [], flows)
  {
  }

  lemma AgreeMarkedToo(decide: Decide, quota: Option<nat>, x: Sessions, marked: seq<nat>, flows: map<nat, Flow>,
                       more: seq<nat>)
    requires Agree(decide, quota, x, marked, flows)
    ensures Agree(decide, quota, x, marked + more, flows)
  {
    hide Index, Lives, Queues;
  }

  function Marks(t: nat, marked: bool): seq<nat> { if marked then [t] else [] }

  datatype Event =
    | AtListener(readable: bool, script: seq<Recv>, writable: bool, outcomes: seq<SendOutcome>)
    | AtSession(token: nat, readable: bool, script: seq<Recv>, writable: bool, outcomes: seq<SendOutcome>, error: bool)

  // ---------------------------------------------------------------- the loop, on values

  ghost function Missing<K>(m: map<K, nat>, gone: set<nat>): map<K, nat> { map k | k in m && m[k] !in gone :: m[k] }

  ghost function StampIn(token2life: map<nat, nat>, t: nat): nat { if t in token2life then token2life[t] else 0 }

  ghost function StampsIn(token2life: map<nat, nat>, gone: set<nat>): set<nat> {
    set t | t in gone && t in token2life :: token2life[t]
  }

  ghost function StampsOf(token2life: map<nat, nat>, list: seq<nat>): seq<nat> {
    seq(|list|, i requires 0 <= i < |list| => StampIn(token2life, list[i]))
  }

  lemma StampsOfAre(token2life: map<nat, nat>, list: seq<nat>)
    requires forall t :: t in list ==> t in token2life
    ensures forall k :: k in StampsOf(token2life, list) <==> k in StampsIn(token2life, Elements(list))
  {
    var s := StampsOf(token2life, list);
    forall k | k in StampsIn(token2life, Elements(list)) ensures k in s {
      var t :| t in Elements(list) && t in token2life && token2life[t] == k;
      var i :| 0 <= i < |list| && list[i] == t;
      assert s[i] == k;
    }
    forall k | k in s ensures k in StampsIn(token2life, Elements(list)) {
      var i :| 0 <= i < |s| && s[i] == k;
      assert list[i] in Elements(list) && token2life[list[i]] == k;
    }
  }

  /** The tables without a set of sessions. */
  ghost function WithoutAll(x: Sessions, gone: set<nat>): Sessions {
    x.(token2life := x.token2life - gone, life2token := x.life2token - StampsIn(x.token2life, gone),
       token2addr := x.token2addr - gone, addr2token := Missing(x.addr2token, gone), sockets := x.sockets - gone,
       waitWrite := x.waitWrite - gone, token2dst := x.token2dst - gone, interest := x.interest - gone)
  }

  /** What mirrors a map without some keys, and without one more. */
  lemma MissingMore<K(!new)>(m: map<K, nat>, w: map<nat, K>, gone: set<nat>, t: nat)
    requires Inverse(m, w) && t in w && t !in gone
    ensures Missing(m, gone) - {w[t]} == Missing(m, gone + {t})
  {
  }

  lemma StampsMore(token2life: map<nat, nat>, life2token: map<nat, nat>, gone: set<nat>, t: nat)
    requires t in token2life && t !in gone
    ensures life2token - StampsIn(token2life, gone) - {(token2life - gone)[t]} ==
      life2token - StampsIn(token2life, gone + {t})
  {
  }

  lemma MinusMore<V>(m: map<nat, V>, gone: set<nat>, t: nat)
    ensures m - gone - {t} == m - (gone + {t})
  {
  }

  lemma WithoutMore(x: Sessions, gone: set<nat>, t: nat)
    requires Inverse(x.addr2token, x.token2addr) && t in x.token2addr && t in x.token2life && t !in gone
    ensures Without(WithoutAll(x, gone), t) == WithoutAll(x, gone + {t})
  {
    MissingMore(x.addr2token, x.token2addr, gone, t);
    StampsMore(x.token2life, x.life2token, gone, t);
    hide Missing, Inverse, StampsIn;
    MinusMore(x.token2life, gone, t);
    MinusMore(x.token2addr, gone, t);
    MinusMore(x.waitWrite, gone, t);
    MinusMore(x.token2dst, gone, t);
    MinusMore(x.interest, gone, t);
    assert x.sockets - gone - {t} == x.sockets - (gone + {t});
  }

  lemma StillThere(x: Sessions, gone: seq<nat>, t: nat)
    requires t in x.token2addr && t in x.token2life && forall u :: u in gone ==> u in x.token2life
    ensures t in WithoutAll(x, Elements(gone)).token2life <==> t !in gone
    ensures t !in gone ==> WithoutAll(x, Elements(gone)).token2life[t] == x.token2life[t]
    ensures t in WithoutAll(x, Elements(gone)).token2addr <==> t !in gone
    ensures t in Elements(gone) <==> t in gone
    ensures var k := x.token2life[t];
            k in WithoutAll(x, Elements(gone)).life2token <==> k in x.life2token && k !in StampsOf(x.token2life, gone)
    ensures t in gone ==> x.token2life[t] in StampsOf(x.token2life, gone)
  {
    StampsOfAre(x.token2life, gone);
  }

  lemma NothingGone(list: seq<nat>, x: Sessions)
    ensures WithoutAll(x, Elements(list[..0])) == x
  {
  }

  lemma FewerMissing<K(!new)>(m: map<K, nat>, gone: set<nat>)
    ensures |Missing(m, gone)| <= |m|
  {
    var rest := Missing(m, gone);
    assert rest == m - (m.Keys - rest.Keys);
    FewerKeys(m, m.Keys - rest.Keys);
  }

  lemma IndexWithout(x: Sessions, gone: set<nat>)
    requires Index(x.addr2token, x.token2addr, x.sockets, x.tx)
    ensures var y := WithoutAll(x, gone);
            Index(y.addr2token, y.token2addr, y.sockets, y.tx)
  {
  }

  lemma LivesWithout(x: Sessions, gone: set<nat>)
    requires Lives(x.token2life, x.life2token, x.token2addr.Keys)
    ensures var y := WithoutAll(x, gone);
            Lives(y.token2life, y.life2token, y.token2addr.Keys)
  {
    var y := WithoutAll(x, gone);
    assert y.token2life.Keys == x.token2life.Keys - gone && y.token2addr.Keys == x.token2addr.Keys - gone;
    hide Missing;
    forall k | k in y.life2token ensures y.life2token[k] in y.token2life && y.token2life[y.life2token[k]] == k {
      assert x.life2token[k] in x.token2life && x.token2life[x.life2token[k]] == k;
    }
  }

  lemma QueuesWithout(x: Sessions, gone: set<nat>)
    requires Queues(x.waitWrite, x.token2dst, x.interest, x.token2addr.Keys)
    ensures var y := WithoutAll(x, gone);
            Queues(y.waitWrite, y.token2dst, y.interest, y.token2addr.Keys)
  {
    var y := WithoutAll(x, gone);
    assert y.interest.Keys == x.interest.Keys - gone && y.token2addr.Keys == x.token2addr.Keys - gone;
    assert y.waitWrite.Keys == x.waitWrite.Keys - gone && y.token2dst.Keys == x.token2dst.Keys - gone;
    hide Missing, StampsIn;
  }

  lemma FlowsWithout(decide: Decide, x: Sessions, marked: seq<nat>, flows: map<nat, Flow>, gone: set<nat>)
    requires Flows(decide, x.token2addr, marked, x.waitWrite, x.token2dst, flows, x.tx)
    ensures var y := WithoutAll(x, gone);
            Flows(decide, y.token2addr, marked, y.waitWrite, y.token2dst, flows, y.tx)
  {
    hide Missing, StampsIn, FlowOk;
  }

  /** Removing sessions, however many, keeps all tables in agreement. */
  lemma AgreeWithout(decide: Decide, quota: Option<nat>, x: Sessions, marked: seq<nat>, flows: map<nat, Flow>,
                     gone: set<nat>)
    requires Agree(decide, quota, x, marked, flows)
    ensures Agree(decide, quota, WithoutAll(x, gone), marked, flows)
  {
    FewerMissing(x.addr2token, gone);
    assert WithoutAll(x, gone).addr2token == Missing(x.addr2token, gone);
    hide Index, Lives, Queues, Flows, WithoutAll, Missing;
    IndexWithout(x, gone);
    LivesWithout(x, gone);
    QueuesWithout(x, gone);
    FlowsWithout(decide, x, marked, flows, gone);
  }

  lemma GoneForGood(x: Sessions, gone: set<nat>)
    ensures forall t :: t in gone ==> t !in WithoutAll(x, gone).token2addr
  {
  }

  /** The session tables, what passed through them, the sessions marked for closing, the queue of replies,
      and the replies that were sent to clients. */
  datatype World = World(
    x: Sessions, flows: map<nat, Flow>, marked: seq<nat>, back: seq<Datagram>, answered: seq<Datagram>)

  /** Those to be closed: the marked, and those that the index of stamps has below the limit. */
  ghost function ToGo(w: World, limit: nat): set<nat> {
    Elements(w.marked) + set k | k in w.x.life2token && k < limit :: w.x.life2token[k]
  }

  /** Each is taken out of the tables in turn, and out of the index of stamps: so the marked must have
      entries there, no two the same and none that is outdated as well. */
  ghost predicate CanSweep(w: World, limit: nat) {
    && NoDup(StampsOf(w.x.token2life, w.marked))
    && forall t :: t in w.marked ==>
         t in w.x.token2life && w.x.token2life[t] in w.x.life2token && w.x.token2life[t] >= limit
  }

  ghost predicate Removable(x: Sessions, list: seq<nat>) {
    NoDup(StampsOf(x.token2life, list)) && forall k :: k in StampsOf(x.token2life, list) ==> k in x.life2token
  }

  ghost function Swept(w: World, limit: nat): World { w.(x := WithoutAll(w.x, ToGo(w, limit)), marked := []) }

  lemma OutdatedAre(w: World, limit: nat, outdated: seq<nat>, stamps: seq<nat>)
    requires Lives(w.x.token2life, w.x.life2token, w.x.token2addr.Keys)
    requires forall k :: k in stamps <==> k in w.x.life2token && k < limit
    requires |outdated| == |stamps| && forall i :: 0 <= i < |outdated| ==> outdated[i] == w.x.life2token[stamps[i]]
    ensures StampsOf(w.x.token2life, outdated) == stamps
    ensures Elements(w.marked + outdated) == ToGo(w, limit)
    ensures forall t :: t in outdated ==> t in w.x.token2addr
  {
    var late := set k | k in w.x.life2token && k < limit :: w.x.life2token[k];
    forall t | t in late ensures t in outdated {
      var k :| k in w.x.life2token && k < limit && w.x.life2token[k] == t;
      assert k in stamps;
      var i :| 0 <= i < |stamps| && stamps[i] == k;
      assert outdated[i] == t;
    }
    forall t | t in outdated ensures t in late && t in w.x.token2life.Keys {
      var i :| 0 <= i < |outdated| && outdated[i] == t;
      assert stamps[i] in stamps;
    }
    assert forall i :: 0 <= i < |stamps| ==> stamps[i] in stamps;
  }

  lemma MarkedStamps(w: World)
    requires forall t :: t in w.marked ==> t in w.x.token2life
    ensures forall t :: t in w.marked ==> w.x.token2life[t] in StampsOf(w.x.token2life, w.marked)
    ensures forall k :: k in StampsOf(w.x.token2life, w.marked) ==> exists t :: t in w.marked && w.x.token2life[t] == k
  {
    var s := StampsOf(w.x.token2life, w.marked);
    forall t | t in w.marked ensures w.x.token2life[t] in s {
      var i :| 0 <= i < |w.marked| && w.marked[i] == t;
      assert s[i] == w.x.token2life[t];
    }
    forall k | k in s ensures exists t :: t in w.marked && w.x.token2life[t] == k {
      var i :| 0 <= i < |s| && s[i] == k;
      assert w.marked[i] in w.marked;
    }
  }

  /** When the list of those to be closed can be worked off. */
  lemma SweepGoes(w: World, limit: nat, outdated: seq<nat>, stamps: seq<nat>)
    requires forall t :: t in w.marked ==> t in w.x.token2life
    requires Ascending(stamps) && forall k :: k in stamps <==> k in w.x.life2token && k < limit
    requires StampsOf(w.x.token2life, outdated) == stamps
    ensures Removable(w.x, w.marked + outdated) <==> CanSweep(w, limit)
  {
    var m := StampsOf(w.x.token2life, w.marked);
    assert StampsOf(w.x.token2life, w.marked + outdated) == m + stamps;
    AscendingNoDup(stamps);
    NoDupSplit(m, stamps);
    MarkedStamps(w);
    hide NoDup, StampsOf, Ascending;
  }

  /** A session's receive loop. */
  ghost function Hears(w: World, t: nat, script: seq<Recv>): World {
    if t !in w.x.token2addr || t !in w.x.token2life then w
    else w.(x := StampedTimes(w.x, t, |Payloads(script)|), marked := w.marked + Marks(t, ReadFails(script)),
            back := w.back + Addressed(w.x.token2addr[t], Payloads(script)))
  }

  /** A session's send loop. */
  ghost function Sends(decide: Decide, w: World, t: nat, outcomes: seq<SendOutcome>): World {
    if t !in w.x.token2addr || t !in w.x.token2life then w else
      var r := SendAll(decide, w.x.token2addr[t], QueueIn(w.x.waitWrite, t), DstIn(w.x.token2dst, t), outcomes);
      w.(x := Used(w.x, t, r), flows := w.flows[t := AfterSend(FlowIn(w.flows, t), r)],
         marked := w.marked + Marks(t, r.mark))
  }

  ghost function SessionServed(decide: Decide, w: World, t: nat, e: Event): World
    requires e.AtSession?
  {
    var a := if e.readable then Hears(w, t, e.script) else w;
    var b := if e.writable && t in a.x.waitWrite then Sends(decide, a, t, e.outcomes) else a;
    b.(marked := b.marked + Marks(t, e.error))
  }

  /** What the loop takes for granted of an event: a session's socket is there, and its queue entry when
      it may be written to; a reply waits when the listener may be; and receiving there does not fail. */
  ghost predicate Fine(w: World, e: Event) {
    match e
    case AtListener(readable, script, writable, _) => !(readable && ReadFails(script)) && (writable ==> w.back != [])
    case AtSession(t, _, _, writable, _, _) => t in w.x.token2addr && (writable ==> t in w.x.waitWrite)
  }

  ghost function ListenerServed(allow: SockAddr -> bool, quota: Option<nat>, w: World, e: Event): World
    requires e.AtListener?
  {
    var book := if e.readable then TakeAll(allow, quota, Book(w.x, w.flows), e.script) else Book(w.x, w.flows);
    var r := if e.writable then SendBack(w.back, e.outcomes) else Returned(w.back, [], []);
    World(book.x, book.flows, w.marked, r.queue, w.answered + r.sent)
  }

  datatype Setup = Setup(decide: Decide, allow: SockAddr -> bool, quota: Option<nat>)

  ghost function Served(s: Setup, w: World, e: Event): World {
    if e.AtListener? then ListenerServed(s.allow, s.quota, w, e) else SessionServed(s.decide, w, e.token, e)
  }

  ghost function AllServed(s: Setup, w: World, events: seq<Event>): World
    decreases |events|
  {
    if events == [] then w else AllServed(s, Served(s, w, events[0]), events[1..])
  }

  ghost predicate AllFine(s: Setup, w: World, events: seq<Event>)
    decreases |events|
  {
    events == [] || (Fine(w, events[0]) && AllFine(s, Served(s, w, events[0]), events[1..]))
  }

  /** The tables at the time a turn works with, and the stamps that are outdated then. */
  ghost function AtTime(w: World, clock: nat): World {
    w.(x := w.x.(now := TurnTime(clock, w.x.life2token.Keys)))
  }

  function Limit(now: nat): nat { if now < LIFESPAN then 0 else now - LIFESPAN }

  /** The sweep with which a turn begins: it fails, too, when no lifespan has passed since the epoch. */
  ghost predicate CanStart(w: World, clock: nat) {
    AtTime(w, clock).x.now >= LIFESPAN && CanSweep(AtTime(w, clock), Limit(AtTime(w, clock).x.now))
  }

  ghost function Started(w: World, clock: nat): World { Swept(AtTime(w, clock), Limit(AtTime(w, clock).x.now)) }

  /** One turn: the sweep, then the events. */
  ghost function Turned(s: Setup, w: World, clock: nat, events: seq<Event>): World {
    AllServed(s, Started(w, clock), events)
  }

  ghost predicate TurnGoes(s: Setup, w: World, clock: nat, events: seq<Event>) {
    CanStart(w, clock) && AllFine(s, Started(w, clock), events)
  }

  /** Turns with the clock readings they begin with. */
  type Turns = seq<(nat, seq<Event>)>

  ghost function AllTurned(s: Setup, w: World, turns: Turns): World
    decreases |turns|
  {
    if turns == [] then w else AllTurned(s, Turned(s, w, turns[0].0, turns[0].1), turns[1..])
  }

  ghost predicate AllGo(s: Setup, w: World, turns: Turns)
    decreases |turns|
  {
    turns == [] ||
    (TurnGoes(s, w, turns[0].0, turns[0].1) && AllGo(s, Turned(s, w, turns[0].0, turns[0].1), turns[1..]))
  }

  const NO_SESSIONS: Sessions := Sessions(0, 0, map[], map[], {}, map[], map[], map[], map[], map[])

  const EMPTY: World := World(NO_SESSIONS, map[], [], [], [])
}
