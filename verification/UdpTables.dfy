/** The tables of the UDP forwarder, as values: what it takes for them to agree, and what one session's
    send loop and the loop that sends replies back do. */
module UdpTables {
  import opened Bytes

  const LIFESPAN: nat := 180_000_000

  // ---------------------------------------------------------------- two maps that mirror each other

  ghost predicate Inverse<K(!new), V(!new)>(m: map<K, V>, w: map<V, K>) {
    && (forall k :: k in m ==> m[k] in w && w[m[k]] == k)
    && (forall v :: v in w ==> w[v] in m && m[w[v]] == v)
  }

  /** A key moves to a new value. */
  lemma InverseMove<K(!new), V(!new)>(m: map<K, V>, w: map<V, K>, k: K, v: V)
    requires Inverse(m, w) && k in m && v !in w
    ensures Inverse(m[k := v], (w - {m[k]})[v := k])
  {
  }

  /** And it may only take a free value: another key that had it would lose its mirror entry. */
  lemma MoveNeedsFreeValue<K(!new), V(!new)>(m: map<K, V>, w: map<V, K>, k: K, v: V)
    requires Inverse(m, w) && k in m
    ensures Inverse(m[k := v], (w - {m[k]})[v := k]) <==> v !in w || w[v] == k
  {
    if v !in w {
      InverseMove(m, w, k, v);
    } else if w[v] == k {
      assert m[k := v] == m && (w - {m[k]})[v := k] == w;
    } else {
      assert w[v] in m[k := v] && m[k := v][w[v]] == v;
    }
  }

  lemma AddNeedsFreeValue<K(!new), V(!new)>(m: map<K, V>, w: map<V, K>, k: K, v: V)
    requires Inverse(m, w) && k !in m
    ensures Inverse(m[k := v], w[v := k]) <==> v !in w
  {
    if v in w {
      assert w[v] in m[k := v] && m[k := v][w[v]] == v;
    }
  }

  // ---------------------------------------------------------------- stamps

  ghost predicate IsLeast(k: nat, s: set<nat>) { k in s && forall j :: j in s ==> k <= j }

  lemma SmallestExists(s: set<nat>)
    requires s != {}
    ensures exists k :: IsLeast(k, s)
  {
    var k :| k in s;
    if s != {k} {
      var rest := s - {k};
      assert rest == {} ==> s == {k};
      SmallestExists(rest);
      var r :| IsLeast(r, rest);
      var m := Min(k, r);
      forall j | j in s ensures m <= j { if j != k { assert j in rest; } }
      assert IsLeast(m, s);
    } else {
      assert IsLeast(k, s);
    }
  }

  /** The smallest stamp in use. */
  method Smallest(s: set<nat>) returns (k: nat)
    requires s != {}
    ensures IsLeast(k, s)
  {
    SmallestExists(s);
    k :| k in s && forall j :: j in s ==> k <= j;
  }

  /** The time a turn works with: the clock, or the smallest stamp in use if that is later. */
  ghost predicate IsTurnTime(now: nat, clock: nat, stamps: set<nat>) {
    if stamps == {} then now == clock
    else exists k :: IsLeast(k, stamps) && now == if clock >= k then clock else k
  }

  lemma OneTurnTime(a: nat, b: nat, clock: nat, stamps: set<nat>)
    requires IsTurnTime(a, clock, stamps) && IsTurnTime(b, clock, stamps)
    ensures a == b
  {
  }

  ghost function TurnTime(clock: nat, stamps: set<nat>): (now: nat)
    ensures IsTurnTime(now, clock, stamps) && clock <= now
  {
    if stamps == {} then clock else
      SmallestExists(stamps);
      var k :| IsLeast(k, stamps);
      if clock >= k then clock else k
  }

  /** No element comes twice. */
  ghost predicate NoDup(s: seq<nat>) {
    s == [] || (s[|s| - 1] !in s[..|s| - 1] && NoDup(s[..|s| - 1]))
  }

  lemma {:induction false} NoDupSplit(a: seq<nat>, b: seq<nat>)
    requires NoDup(b)
    ensures NoDup(a + b) <==> NoDup(a) && forall t :: t in a ==> t !in b
  {
    if b == [] {
      assert a + b == a;
    } else {
      var rest, last := b[..|b| - 1], b[|b| - 1];
      NoDupSplit(a, rest);
      assert (a + b)[..|a + b| - 1] == a + rest;
      assert b == rest + [last];
    }
  }

  lemma NoDupPush(a: seq<nat>, t: nat)
    ensures NoDup(a + [t]) <==> t !in a && NoDup(a)
  {
  }

  lemma {:induction false} NoDupFront(s: seq<nat>, i: nat)
    requires NoDup(s) && i <= |s|
    ensures NoDup(s[..i])
    decreases |s|
  {
    if i < |s| {
      assert s[..|s| - 1][..i] == s[..i];
      NoDupFront(s[..|s| - 1], i);
    } else {
      assert s[..i] == s;
    }
  }

  lemma NoDupNext(s: seq<nat>, i: nat)
    requires i < |s| && NoDup(s[..i])
    ensures NoDup(s[..i + 1]) <==> s[i] !in s[..i]
    ensures s[i] in s[..i] ==> !NoDup(s)
  {
    assert s[..i + 1] == s[..i] + [s[i]];
    NoDupPush(s[..i], s[i]);
    if NoDup(s) { NoDupFront(s, i + 1); }
  }

  ghost predicate Ascending(s: seq<nat>) { forall i, j :: 0 <= i < j < |s| ==> s[i] < s[j] }

  lemma {:induction false} AscendingNoDup(s: seq<nat>)
    requires Ascending(s)
    ensures NoDup(s)
    decreases |s|
  {
    if s != [] { AscendingNoDup(s[..|s| - 1]); }
  }

  /** The sessions with a stamp below a given time, in the order of their stamps. */
  method Outdated(life2token: map<nat, nat>, limit: nat) returns (list: seq<nat>, ghost stamps: seq<nat>)
    ensures Ascending(stamps) && forall k :: k in stamps <==> k in life2token && k < limit
    ensures |list| == |stamps| && forall i :: 0 <= i < |list| ==> list[i] == life2token[stamps[i]]
  {
    list, stamps := [], [];
    var rest := set k | k in life2token && k < limit;
    while rest != {}
      invariant forall k :: k in rest ==> k in life2token && k < limit
      invariant Ascending(stamps) && forall i, k :: 0 <= i < |stamps| && k in rest ==> stamps[i] < k
      invariant forall k :: k in stamps <==> k in life2token && k < limit && k !in rest
      invariant |list| == |stamps| && forall i :: 0 <= i < |list| ==> list[i] == life2token[stamps[i]]
      decreases |rest|
    {
      var k := Smallest(rest);
      list, stamps := list + [life2token[k]], stamps + [k];
      rest := rest - {k};
    }
  }

  // ---------------------------------------------------------------- one flow

  datatype SendOutcome = SendOk(n: nat) | SendBlock | SendFail

  /** What happened to the queue of a session: what is left, the datagrams sent, the target, whether
      the session was marked for closing, and the bytes written. */
  datatype Sent = Sent(queue: seq<seq<Byte>>, sent: seq<seq<Byte>>, dst: Option<SockAddr>, mark: bool, written: nat)

  type Decide = (seq<Byte>, SockAddr) -> Option<SockAddr>

  function TargetOf(decide: Decide, addr: SockAddr, dst: Option<SockAddr>, first: seq<Byte>): Option<SockAddr> {
    if dst.Some? then dst else decide(first, addr)
  }

  /** Datagrams go out from the front until the socket blocks or fails, or none is left. A datagram
      with no target, or whose sending fails, is given up. */
  function SendAll(decide: Decide, addr: SockAddr, queue: seq<seq<Byte>>, dst: Option<SockAddr>,
                   outcomes: seq<SendOutcome>): Sent
    decreases |queue|
  {
    if queue == [] then Sent(queue, [], dst, false, 0) else
      var target := TargetOf(decide, addr, dst, queue[0]);
      if target.None? then Sent(queue[1..], [], dst, true, 0)
      else if outcomes == [] || outcomes[0].SendBlock? then Sent(queue, [], target, false, 0)
      else if outcomes[0].SendFail? then Sent(queue[1..], [], target, true, 0)
      else
        var r := SendAll(decide, addr, queue[1..], target, outcomes[1..]);
        r.(sent := [queue[0]] + r.sent, written := outcomes[0].n + r.written)
  }

  /** What has passed through a session: the datagrams accepted from its client, those sent on, and
      the targets they were sent to. */
  datatype Flow = Flow(accepted: seq<seq<Byte>>, sent: seq<seq<Byte>>, targets: set<SockAddr>)

  const NO_FLOW: Flow := Flow([], [], {})

  /** A session sends to its one target. Unless it is marked for closing, what it accepted is what it
      sent followed by its queue, and the target is the one chosen from its first datagram. */
  ghost predicate FlowOk(decide: Decide, addr: SockAddr, marked: bool, queue: seq<seq<Byte>>, dst: Option<SockAddr>,
                         f: Flow) {
    && (forall a :: a in f.targets ==> dst == Some(a))
    && (f.targets == {} <==> f.sent == [])
    && (!marked ==>
         && f.accepted == f.sent + queue
         && (f.sent != [] ==> dst.Some?)
         && (dst.Some? ==> f.accepted != [] && dst == decide(f.accepted[0], addr)))
  }

  lemma AcceptedFlow(decide: Decide, addr: SockAddr, marked: bool, queue: seq<seq<Byte>>, dst: Option<SockAddr>,
                     f: Flow,
                     d: seq<Byte>)
    requires FlowOk(decide, addr, marked, queue, dst, f)
    ensures FlowOk(decide, addr, marked, queue + [d], dst, f.(accepted := f.accepted + [d]))
  {
  }

  function AfterSend(f: Flow, r: Sent): Flow {
    f.(sent := f.sent + r.sent, targets := if r.sent != [] && r.dst.Some? then f.targets + {r.dst.value} else f.targets)
  }

  /** A target once chosen stays; one is chosen from the front of the queue; and unless the session is
      marked, what was sent and what is left is the queue. */
  lemma {:induction false} SendAllConserves(decide: Decide, addr: SockAddr, queue: seq<seq<Byte>>,
                                            dst: Option<SockAddr>,
                                            outcomes: seq<SendOutcome>)
    ensures var r := SendAll(decide, addr, queue, dst, outcomes);
            && (dst.Some? ==> r.dst == dst)
            && (dst.None? ==> r.dst.None? || (queue != [] && r.dst == decide(queue[0], addr)))
            && (r.sent != [] ==> r.dst.Some?)
            && (!r.mark ==> r.sent + r.queue == queue)
            && r.sent <= queue
    decreases |queue|
  {
    if queue != [] {
      var target := TargetOf(decide, addr, dst, queue[0]);
      if target.Some? && outcomes != [] && outcomes[0].SendOk? {
        SendAllConserves(decide, addr, queue[1..], target, outcomes[1..]);
        var r := SendAll(decide, addr, queue[1..], target, outcomes[1..]);
        assert [queue[0]] + queue[1..] == queue;
        assert [queue[0]] + (r.sent + r.queue) == ([queue[0]] + r.sent) + r.queue;
      }
    }
  }

  /** What a run of sends to one target does, when the first k go well. */
  ghost predicate SentTo(r: Sent, queue: seq<seq<Byte>>, target: Option<SockAddr>, outcomes: seq<SendOutcome>, k: nat)
    requires k <= |queue| && k <= |outcomes|
  {
    var fails := k < |queue| && k < |outcomes| && outcomes[k].SendFail?;
    && r.sent == queue[..k] && r.queue == (if fails then queue[k + 1..] else queue[k..]) && r.mark == fails
    && r.dst == target && r.written == Written(outcomes[..k])
  }

  lemma SentToMore(r: Sent, queue: seq<seq<Byte>>, target: Option<SockAddr>, outcomes: seq<SendOutcome>, k: nat)
    requires 0 < k <= |queue| && k <= |outcomes| && outcomes[0].SendOk?
    requires SentTo(r, queue[1..], target, outcomes[1..], k - 1)
    ensures SentTo(r.(sent := [queue[0]] + r.sent, written := outcomes[0].n + r.written), queue, target, outcomes, k)
  {
    assert queue[..k] == [queue[0]] + queue[1..][..k - 1] && queue[1..][k - 1..] == queue[k..];
    assert outcomes[..k] == [outcomes[0]] + outcomes[1..][..k - 1];
    if k < |queue| { assert queue[1..][k..] == queue[k + 1..]; }
  }

  lemma {:induction false} SendAllTo(decide: Decide, addr: SockAddr, queue: seq<seq<Byte>>, target: Option<SockAddr>,
                                     outcomes: seq<SendOutcome>, k: nat)
    requires k <= |queue| && k <= |outcomes| && forall i :: 0 <= i < k ==> outcomes[i].SendOk?
    requires k == |queue| || k == |outcomes| || !outcomes[k].SendOk?
    requires target.Some?
    ensures SentTo(SendAll(decide, addr, queue, target, outcomes), queue, target, outcomes, k)
    decreases |queue|
  {
    if k > 0 {
      SendAllTo(decide, addr, queue[1..], target, outcomes[1..], k - 1);
      SentToMore(SendAll(decide, addr, queue[1..], target, outcomes[1..]), queue, target, outcomes, k);
      hide SentTo;
    }
  }

  /** With k the number of sends that go well before one does not, or none is left: those k datagrams go
      out, in order, to one target; the one whose sending fails is given up, and one that would block
      stays. Without a target the first is given up. */
  lemma SendAllExactly(decide: Decide, addr: SockAddr, queue: seq<seq<Byte>>, dst: Option<SockAddr>,
                       outcomes: seq<SendOutcome>, k: nat)
    requires k <= |queue| && k <= |outcomes| && forall i :: 0 <= i < k ==> outcomes[i].SendOk?
    requires k == |queue| || k == |outcomes| || !outcomes[k].SendOk?
    ensures var r := SendAll(decide, addr, queue, dst, outcomes);
            if queue == [] then r == Sent([], [], dst, false, 0)
            else if dst.None? && decide(queue[0], addr).None? then r == Sent(queue[1..], [], None, true, 0)
            else SentTo(r, queue, if dst.Some? then dst else decide(queue[0], addr), outcomes, k)
  {
    if queue != [] && !(dst.None? && decide(queue[0], addr).None?) {
      var target := TargetOf(decide, addr, dst, queue[0]);
      SendAllTo(decide, addr, queue, target, outcomes, k);
      assert SendAll(decide, addr, queue, dst, outcomes) == SendAll(decide, addr, queue, target, outcomes);
      hide SentTo;
    }
  }

  /** The bytes that a run of sends is said to have taken. */
  function Written(outcomes: seq<SendOutcome>): nat {
    if outcomes == [] then 0 else (if outcomes[0].SendOk? then outcomes[0].n else 0) + Written(outcomes[1..])
  }

  lemma SentFlow(decide: Decide, addr: SockAddr, marked: bool, queue: seq<seq<Byte>>, dst: Option<SockAddr>, f: Flow,
                 outcomes: seq<SendOutcome>)
    requires FlowOk(decide, addr, marked, queue, dst, f)
    ensures var r := SendAll(decide, addr, queue, dst, outcomes);
            FlowOk(decide, addr, marked || r.mark, r.queue, r.dst, AfterSend(f, r))
  {
    SendAllConserves(decide, addr, queue, dst, outcomes);
    hide SendAll;
    var r := SendAll(decide, addr, queue, dst, outcomes);
    if !marked && !r.mark {
      assert f.sent + (r.sent + r.queue) == (f.sent + r.sent) + r.queue;
      if dst.None? && queue != [] {
        assert f.sent == [] && f.sent + queue == queue;
      }
    }
  }

  // ---------------------------------------------------------------- replies

  datatype Datagram = Datagram(addr: SockAddr, bytes: seq<Byte>)

  datatype Returned = Returned(queue: seq<Datagram>, sent: seq<Datagram>, lost: seq<Datagram>)

  /** Replies go back from the front. One whose sending fails or would block has left the queue. */
  function SendBack(queue: seq<Datagram>, outcomes: seq<SendOutcome>): Returned
    decreases |queue|
  {
    if queue == [] then Returned([], [], [])
    else if outcomes == [] || outcomes[0].SendBlock? then Returned(queue[1..], [], [queue[0]])
    else
      var r := SendBack(queue[1..], outcomes[1..]);
      if outcomes[0].SendOk? then r.(sent := [queue[0]] + r.sent) else r.(lost := [queue[0]] + r.lost)
  }

  /** Every reply is sent, lost or still queued; those still queued are the last. */
  lemma {:induction false} SendBackAccounts(queue: seq<Datagram>, outcomes: seq<SendOutcome>)
    ensures var r := SendBack(queue, outcomes);
            && |r.sent| + |r.lost| + |r.queue| == |queue|
            && r.queue == queue[|queue| - |r.queue|..]
    decreases |queue|
  {
    if queue != [] && outcomes != [] && !outcomes[0].SendBlock? {
      SendBackAccounts(queue[1..], outcomes[1..]);
    }
  }

  /** The replies whose sending went as given, in order. */
  function Those(queue: seq<Datagram>, outcomes: seq<SendOutcome>, ok: bool): seq<Datagram>
    requires |queue| == |outcomes|
  {
    if queue == [] then [] else
      (if outcomes[0].SendOk? == ok then [queue[0]] else []) + Those(queue[1..], outcomes[1..], ok)
  }

  /** With k the number of sends before one would block, or none is left: each of those k replies is sent
      or lost as its outcome says; the one that would block is lost, and the rest stay. */
  lemma {:induction false} SendBackExactly(queue: seq<Datagram>, outcomes: seq<SendOutcome>, k: nat)
    requires k <= |queue| && k <= |outcomes| && forall i :: 0 <= i < k ==> !outcomes[i].SendBlock?
    requires k == |queue| || k == |outcomes| || outcomes[k].SendBlock?
    ensures var r := SendBack(queue, outcomes);
            && r.sent == Those(queue[..k], outcomes[..k], true)
            && r.lost == Those(queue[..k], outcomes[..k], false) + (if k < |queue| then [queue[k]] else [])
            && r.queue == if k < |queue| then queue[k + 1..] else []
    decreases |queue|
  {
    if queue != [] && k > 0 {
      SendBackExactly(queue[1..], outcomes[1..], k - 1);
      assert queue[..k][1..] == queue[1..][..k - 1] && outcomes[..k][1..] == outcomes[1..][..k - 1];
      if k < |queue| { assert queue[1..][k..] == queue[k + 1..]; }
    }
  }

  ghost predicate AllSent(queue: seq<Datagram>, outcomes: seq<SendOutcome>) {
    |queue| <= |outcomes| && forall i :: 0 <= i < |queue| ==> outcomes[i].SendOk?
  }

  /** No reply is lost exactly when every one in the queue can be sent there and then. */
  lemma {:induction false} SendBackLoses(queue: seq<Datagram>, outcomes: seq<SendOutcome>)
    ensures SendBack(queue, outcomes).lost == [] <==> AllSent(queue, outcomes)
    ensures AllSent(queue, outcomes) ==> SendBack(queue, outcomes) == Returned([], queue, [])
    decreases |queue|
  {
    if queue != [] && outcomes != [] && outcomes[0].SendOk? {
      SendBackLoses(queue[1..], outcomes[1..]);
      assert AllSent(queue, outcomes) <==> AllSent(queue[1..], outcomes[1..]) by { AllSentRest(queue, outcomes); }
      assert [queue[0]] + queue[1..] == queue;
      hide AllSent;
    }
  }

  lemma AllSentRest(queue: seq<Datagram>, outcomes: seq<SendOutcome>)
    requires queue != [] && outcomes != [] && outcomes[0].SendOk?
    ensures AllSent(queue, outcomes) <==> AllSent(queue[1..], outcomes[1..])
  {
  }

  // ---------------------------------------------------------------- loops

  /** The send loop of a session. */
  method SendQueue(decide: Decide, addr: SockAddr, queue: seq<seq<Byte>>, dst: Option<SockAddr>,
                   outcomes: seq<SendOutcome>)
    returns (rest: seq<seq<Byte>>, ghost sent: seq<seq<Byte>>, target: Option<SockAddr>, mark: bool, nwritten: nat)
    ensures var r := SendAll(decide, addr, queue, dst, outcomes);
            rest == r.queue && sent == r.sent && target == r.dst && mark == r.mark && nwritten == r.written
  {
    rest, sent, target, mark, nwritten := queue, [], dst, false, 0;
    ghost var all := SendAll(decide, addr, queue, dst, outcomes);
    var i := 0;
    assert outcomes[0..] == outcomes && [] + all.sent == all.sent;
    while rest != []
      invariant 0 <= i <= |outcomes| && !mark
      invariant var r := SendAll(decide, addr, rest, target, outcomes[i..]);
                all == r.(sent := sent + r.sent, written := nwritten + r.written)
      decreases |rest|
    {
      var buf := rest[0];
      SendStep(decide, addr, rest, target, outcomes, i, sent, nwritten);
      hide SendAll;
      target := TargetOf(decide, addr, target, buf);
      if target.None? {
        rest, mark := rest[1..], true;
        return;
      }
      if i == |outcomes| || outcomes[i].SendBlock? { return; }
      i, rest := i + 1, rest[1..];
      if outcomes[i - 1].SendFail? {
        mark := true;
        return;
      }
      sent, nwritten := sent + [buf], nwritten + outcomes[i - 1].n;
    }
    assert sent + [] == sent;
  }

  lemma SendStep(decide: Decide, addr: SockAddr, queue: seq<seq<Byte>>, dst: Option<SockAddr>,
                 outcomes: seq<SendOutcome>,
                 i: nat,
                 sent: seq<seq<Byte>>, nwritten: nat)
    requires i <= |outcomes| && queue != []
    ensures var target := TargetOf(decide, addr, dst, queue[0]);
            var r := SendAll(decide, addr, queue, dst, outcomes[i..]);
            && sent + [] == sent
            && (target.None? ==> dst.None? && r == Sent(queue[1..], [], None, true, 0))
            && (target.Some? && (i == |outcomes| || outcomes[i].SendBlock?) ==> r == Sent(queue, [], target, false, 0))
            && (target.Some? && i < |outcomes| && outcomes[i].SendFail? ==> r == Sent(queue[1..], [], target, true, 0))
            && (target.Some? && i < |outcomes| && outcomes[i].SendOk? ==>
                 var q := SendAll(decide, addr, queue[1..], target, outcomes[i + 1..]);
                 && r == q.(sent := [queue[0]] + q.sent, written := outcomes[i].n + q.written)
                 && sent + ([queue[0]] + q.sent) == (sent + [queue[0]]) + q.sent)
  {
    if i < |outcomes| {
      assert outcomes[i..][0] == outcomes[i] && outcomes[i..][1..] == outcomes[i + 1..];
    }
  }

  /** The loop that sends replies back. */
  method SendReplies(queue: seq<Datagram>, outcomes: seq<SendOutcome>)
    returns (rest: seq<Datagram>, ghost sent: seq<Datagram>, ghost lost: seq<Datagram>)
    ensures rest == SendBack(queue, outcomes).queue && sent == SendBack(queue, outcomes).sent
    ensures lost == SendBack(queue, outcomes).lost
  {
    rest, sent, lost := queue, [], [];
    ghost var all := SendBack(queue, outcomes);
    var i, cont := 0, true;
    assert outcomes[0..] == outcomes && [] + all.sent == all.sent && [] + all.lost == all.lost;
    while rest != [] && cont
      invariant 0 <= i <= |outcomes|
      invariant cont ==> var r := SendBack(rest, outcomes[i..]); all == Returned(r.queue, sent + r.sent, lost + r.lost)
      invariant !cont ==> all == Returned(rest, sent, lost)
      decreases |rest|
    {
      var head := rest[0];
      BackStep(rest, outcomes, i, sent, lost);
      hide SendBack;
      rest := rest[1..];
      if i == |outcomes| || outcomes[i].SendBlock? {
        lost, cont := lost + [head], false;
      } else if outcomes[i].SendOk? {
        sent, i := sent + [head], i + 1;
      } else {
        lost, i := lost + [head], i + 1;
      }
    }
    assert sent + [] == sent && lost + [] == lost;
  }

  lemma BackStep(queue: seq<Datagram>, outcomes: seq<SendOutcome>, i: nat, sent: seq<Datagram>, lost: seq<Datagram>)
    requires i <= |outcomes| && queue != []
    ensures var r, head := SendBack(queue, outcomes[i..]), queue[0];
            && (i == |outcomes| || outcomes[i].SendBlock? ==>
                 r == Returned(queue[1..], [], [head]) && sent + [] == sent)
            && (i < |outcomes| && !outcomes[i].SendBlock? ==>
                 var q := SendBack(queue[1..], outcomes[i + 1..]);
                 if outcomes[i].SendOk?
                 then r == q.(sent := [head] + q.sent) && sent + ([head] + q.sent) == (sent + [head]) + q.sent
                 else r == q.(lost := [head] + q.lost) && lost + ([head] + q.lost) == (lost + [head]) + q.lost)
  {
    if i < |outcomes| {
      assert outcomes[i..][0] == outcomes[i] && outcomes[i..][1..] == outcomes[i + 1..];
      var q := SendBack(queue[1..], outcomes[i + 1..]);
      Grouped(sent, queue[0], q.sent);
      Grouped(lost, queue[0], q.lost);
    }
  }

  lemma Grouped(a: seq<Datagram>, d: Datagram, b: seq<Datagram>)
    ensures a + ([d] + b) == (a + [d]) + b && a + [] == a
  {
  }

  // ---------------------------------------------------------------- reads of a session

  /** One receive on a socket. */
  datatype Recv = Got(from: SockAddr, bytes: seq<Byte>) | RecvBlock | RecvFail

  /** The datagrams that a receive loop takes that passes over empty ones. */
  function Payloads(script: seq<Recv>): seq<seq<Byte>> {
    if script == [] || !script[0].Got? then []
    else (if script[0].bytes != [] then [script[0].bytes] else []) + Payloads(script[1..])
  }

  /** Whether it ends in an error. */
  predicate ReadFails(script: seq<Recv>) {
    script != [] && (script[0].RecvFail? || (script[0].Got? && ReadFails(script[1..])))
  }

  /** A receive loop takes the datagrams that are not empty, until it would block or fails. */
  lemma {:induction false} PayloadsCompose(a: seq<Recv>, b: seq<Recv>)
    requires forall r :: r in a ==> r.Got?
    ensures Payloads(a + b) == Payloads(a) + Payloads(b) && ReadFails(a + b) == ReadFails(b)
  {
    if a == [] {
      assert a + b == b;
    } else {
      assert a[0] in a && (a + b)[1..] == a[1..] + b;
      PayloadsCompose(a[1..], b);
      hide ReadFails, Payloads;
    }
  }

  lemma PayloadsOne(r: Recv, b: seq<Recv>)
    ensures Payloads([r]) == (if r.Got? && r.bytes != [] then [r.bytes] else [])
    ensures !r.Got? ==> Payloads([r] + b) == [] && ReadFails([r] + b) == r.RecvFail?
    ensures Payloads([]) == [] && !ReadFails([])
  {
    assert [r][1..] == [];
  }

  function Addressed(addr: SockAddr, payloads: seq<seq<Byte>>): (r: seq<Datagram>)
    ensures |r| == |payloads| && forall i :: 0 <= i < |r| ==> r[i] == Datagram(addr, payloads[i])
  {
    if payloads == [] then [] else [Datagram(addr, payloads[0])] + Addressed(addr, payloads[1..])
  }
}
