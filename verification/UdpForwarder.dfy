/** The UDP forwarder: one session per client address, kept in seven tables, a queue of replies, and a
    sweep that closes sessions that are idle or marked; each method does what the machine says. */
module UdpForwarder {
  import opened Bytes
  import opened Collections
  import opened UdpTables
  import opened UdpMachine
  import S = UdpSteps

  class Forwarder {
    const decide: Decide
    const allow: SockAddr -> bool
    const quota: Option<nat>

    var tx: nat
    var addr2token: map<SockAddr, nat>
    var token2addr: map<nat, SockAddr>
    var sockets: set<nat>
    var waitWrite: map<nat, seq<seq<Byte>>>
    var life2token: map<nat, nat>
    var token2life: map<nat, nat>
    var token2dst: map<nat, SockAddr>
    var writeBack: seq<Datagram>
    var waitingToClose: seq<nat>
    var now: nat

    /** What the sockets are watched for. */
    var listenerInterest: Interest
    var interest: map<nat, Interest>

    /** What passed through each session, ever; all replies read for clients; and those of them that
        have left the queue of replies. */
    ghost var flows: map<nat, Flow>
    ghost var replies: seq<Datagram>
    ghost var returned: seq<Datagram>

    /** The replies that were sent. */
    ghost var answered: seq<Datagram>

    constructor (decide: Decide, allow: SockAddr -> bool, quota: Option<nat>)
      ensures Valid() && WorldOf() == EMPTY
      ensures this.decide == decide && this.allow == allow && this.quota == quota
    {
      this.decide, this.allow, this.quota := decide, allow, quota;
      tx, now, addr2token, token2addr, sockets := 0, 0, map[], map[], {};
      waitWrite, life2token, token2life, token2dst := map[], map[], map[], map[];
      writeBack, waitingToClose, listenerInterest, interest := [], [], Interest(true, false), map[];
      flows, replies, returned, answered := map[], [], [], [];
    }

    ghost function Now(): Sessions
      reads this
    {
      Sessions(tx, now, addr2token, token2addr, sockets, waitWrite, life2token, token2life, token2dst, interest)
    }

    ghost function WorldOf(): World
      reads this
    {
      World(Now(), flows, waitingToClose, writeBack, answered)
    }

    /** The tables agree; every session keeps its order and its target; and the queue of replies holds
        what has not left it, while the listener is watched for writing exactly if there is any. */
    ghost predicate Tables()
      reads this
    {
      && Agree(decide, quota, Now(), waitingToClose, flows)
      && listenerInterest == Interest(true, writeBack != [])
      && replies == returned + writeBack
    }

    ghost predicate Valid()
      reads this
    {
      Tables() && forall t :: t in waitingToClose ==> t in token2addr
    }

    // -------------------------------------------------------------- the start of a turn

    method RemoveLife(t: nat)
      requires t in token2life
      modifies `life2token, `token2life
      ensures token2life == old(token2life) - {t} && life2token == old(life2token) - {old(token2life[t])}
    {
      var k := token2life[t];
      token2life := token2life - {t};
      life2token := life2token - {k};
    }

    method RemoveTables(t: nat)
      requires t in token2addr && t in token2life
      modifies `addr2token, `token2addr, `sockets, `waitWrite, `life2token, `token2life, `token2dst, `interest
      ensures Now() == old(Without(Now(), t))
    {
      RemoveLife(t);
      var addr := token2addr[t];
      addr2token := addr2token - {addr};
      token2addr := token2addr - {t};
      sockets, interest := sockets - {t}, interest - {t};
      waitWrite := waitWrite - {t};
      token2dst := token2dst - {t};
    }

    /** The present, for this turn: the clock, or the smallest stamp in use if that is later. */
    method StartTurn(clock: nat)
      requires Valid()
      modifies `now
      ensures Valid() && WorldOf() == AtTime(old(WorldOf()), clock)
    {
      var present := clock;
      if life2token.Keys != {} {
        var k := Smallest(life2token.Keys);
        if k > present { present := k; }
      }
      assert IsTurnTime(present, clock, life2token.Keys);
      OneTurnTime(present, TurnTime(clock, life2token.Keys), clock, life2token.Keys);
      hide Index, Lives, Queues, Flows, TurnTime;
      now := present;
    }

    /** Each session on the list is taken out of the tables; one that is not there any more, or whose
        stamp is not in the index any more, cannot be. */
    method RemoveAll() returns (ok: bool)
      requires Tables() && forall t :: t in waitingToClose ==> t in token2addr
      modifies `addr2token, `token2addr, `sockets, `waitWrite, `life2token, `token2life, `token2dst, `interest
      ensures ok <==> Removable(old(Now()), waitingToClose)
      ensures ok ==> Now() == WithoutAll(old(Now()), Elements(waitingToClose))
    {
      hide Tables, NoDup, Elements, Without, WithoutAll, Inverse, StampsIn, StampsOf, Lives;
      TokensLive();
      var i := 0;
      ghost var was, all := Now(), waitingToClose;
      ghost var stamps := StampsOf(was.token2life, all);
      NothingGone(all, was);
      FirstStamps(was.token2life, all);
      while i < |waitingToClose|
        invariant 0 <= i <= |waitingToClose| && NoDup(stamps[..i])
          && forall k :: k in stamps[..i] ==> k in was.life2token
        invariant Now() == WithoutAll(was, Elements(all[..i]))
      {
        var t := waitingToClose[i];
        assert t in was.token2addr.Keys && t in was.token2life.Keys;
        assert forall u :: u in all[..i] ==> u in was.token2life.Keys;
        StampsNext(was.token2life, all, i);
        ElementsOfMore(all, i);
        StillThere(was, all[..i], t);
        if t !in token2life || token2life[t] !in life2token { return false; }
        WithoutMore(was, Elements(all[..i]), t);
        RemoveTables(t);
        i := i + 1;
      }
      assert all[..i] == all && stamps[..i] == stamps;
      return true;
    }

    /** The sweep: it fails, as a removal of what is not there, exactly when it cannot be made; otherwise
        it closes the marked sessions and the outdated ones, and no others. */
    method Sweep(limit: nat) returns (ok: bool)
      requires Valid()
      modifies `addr2token, `token2addr, `sockets, `waitWrite, `life2token, `token2life, `token2dst, `interest,
        `waitingToClose
      ensures ok <==> CanSweep(old(WorldOf()), limit)
      ensures ok ==> Valid() && WorldOf() == Swept(old(WorldOf()), limit)
    {
      hide Agree, NoDup, WithoutAll, Inverse, Ascending, Lives, StampsOf, CanSweep, Removable;
      TokensLive();
      var outdated;
      ghost var stamps;
      outdated, stamps := Outdated(life2token, limit);
      OutdatedAre(WorldOf(), limit, outdated, stamps);
      SweepGoes(WorldOf(), limit, outdated, stamps);
      AgreeMarkedToo(decide, quota, Now(), waitingToClose, flows, outdated);
      waitingToClose := waitingToClose + outdated;
      ghost var x, all := Now(), waitingToClose;
      ok := RemoveAll();
      if ok {
        AgreeWithout(decide, quota, x, all, flows, Elements(all));
        GoneForGood(x, Elements(all));
        AgreeUnmarked(decide, quota, Now(), all, flows);
        waitingToClose := [];
      }
    }

    lemma TokensLive()
      requires Tables()
      ensures Lives(token2life, life2token, token2addr.Keys) && Inverse(addr2token, token2addr)
      ensures token2life.Keys == token2addr.Keys
    {
    }

    // -------------------------------------------------------------- one session

    method MoveStamp(t: nat)
      requires t in token2life
      modifies `life2token, `token2life, `now
      ensures Now() == old(Stamped(Now(), t))
    {
      var oldLife := token2life[t];
      life2token := life2token - {oldLife};
      token2life := token2life[t := now];
      life2token := life2token[now := t];
      now := now + 1;
    }

    /** A session is used: its stamp moves to the present. */
    method Stamp(t: nat)
      requires Tables() && t in token2addr && t in token2life
      modifies `life2token, `token2life, `now
      ensures Tables() && Now() == old(Stamped(Now(), t))
    {
      hide Agree, Stamped;
      MoveStamp(t);
      AgreeStamped(decide, quota, old(Now()), waitingToClose, flows, t);
    }

    method Mark(t: nat)
      requires Valid() && t in token2addr
      modifies `waitingToClose
      ensures Valid() && waitingToClose == old(waitingToClose) + [t] && Now() == old(Now())
    {
      hide Agree;
      waitingToClose := waitingToClose + [t];
      AgreeMarked(decide, quota, Now(), old(waitingToClose), flows, t);
    }

    // -------------------------------------------------------------- datagrams from clients

    method Enter(addr: SockAddr) returns (t: nat)
      modifies `tx, `addr2token, `token2addr, `sockets, `token2life, `life2token, `now, `interest
      ensures t == tx == old(tx) + 1
      ensures addr2token == old(addr2token)[addr := t]
      ensures token2addr == old(token2addr)[t := addr] && sockets == old(sockets) + {t}
      ensures token2life == old(token2life)[t := old(now)]
      ensures life2token == old(life2token)[old(now) := t] && now == old(now) + 1
      ensures interest == old(interest)[t := Interest(true, false)]
    {
      tx := tx + 1;
      t := tx;
      AddClient(t, addr);
      AddLife(t);
      interest := interest[t := Interest(true, false)];
    }

    method AddClient(t: nat, addr: SockAddr)
      modifies `addr2token, `token2addr, `sockets
      ensures addr2token == old(addr2token)[addr := t]
      ensures token2addr == old(token2addr)[t := addr] && sockets == old(sockets) + {t}
    {
      addr2token := addr2token[addr := t];
      token2addr := token2addr[t := addr];
      sockets := sockets + {t};
    }

    method AddLife(t: nat)
      modifies `life2token, `token2life, `now
      ensures token2life == old(token2life)[t := old(now)]
      ensures life2token == old(life2token)[old(now) := t] && now == old(now) + 1
    {
      token2life := token2life[t := now];
      life2token := life2token[now := t];
      now := now + 1;
    }

    method NewSession(addr: SockAddr) returns (t: nat)
      requires Tables() && addr !in addr2token && (quota.Some? ==> |addr2token| < quota.value)
      modifies `tx, `addr2token, `token2addr, `sockets, `token2life, `life2token, `now, `interest
      ensures Tables() && t == old(tx) + 1 && Now() == old(Joined(Now(), addr))
    {
      hide Agree, Joined;
      t := Enter(addr);
      JoinedIs(old(Now()), Now(), addr);
      AgreeJoined(decide, quota, old(Now()), waitingToClose, flows, addr);
    }

    method PutInQueue(t: nat, d: seq<Byte>)
      modifies `waitWrite, `interest
      ensures Now() == old(Queued(Now(), t, d))
    {
      if t !in waitWrite {
        waitWrite := waitWrite[t := []];
      }
      waitWrite := waitWrite[t := waitWrite[t] + [d]];
      interest := interest[t := Interest(true, true)];
    }

    method Push(t: nat, d: seq<Byte>)
      requires Tables() && t in token2addr
      modifies `waitWrite, `interest, `flows
      ensures Tables() && Now() == old(Queued(Now(), t, d)) && flows == old(Accepted(flows, t, d))
    {
      hide Agree, Queued;
      PutInQueue(t, d);
      flows := Accepted(flows, t, d);
      AgreeQueued(decide, quota, old(Now()), waitingToClose, old(flows), t, d);
    }

    lemma ClientHasSession(addr: SockAddr)
      requires Tables() && addr in addr2token
      ensures addr2token[addr] in token2addr && token2addr[addr2token[addr]] == addr
    {
    }

    method FindSession(addr: SockAddr) returns (t: nat)
      requires Tables() && !TurnedAway(allow, quota, addr2token, addr)
      modifies `tx, `addr2token, `token2addr, `sockets, `token2life, `life2token, `now, `interest
      ensures Tables() && Now() == old(For(Now(), addr)) && t == old(TokenOf(Now(), addr))
      ensures t in token2addr && token2addr[t] == addr && forall u :: u in old(token2addr) ==> u in token2addr
    {
      if addr in addr2token {
        ClientHasSession(addr);
        t := addr2token[addr];
      } else {
        hide Agree;
        t := NewSession(addr);
        assert token2addr == Now().token2addr;
      }
    }

    ghost function Books(): Book
      reads this
    {
      Book(Now(), flows)
    }

    /** One datagram from a client: it joins the queue of that client's session. */
    method OnDatagram(addr: SockAddr, d: seq<Byte>)
      requires Valid()
      modifies `tx, `addr2token, `token2addr, `sockets, `token2life, `life2token, `now, `interest, `waitWrite, `flows
      ensures Valid() && Books() == TakeOne(allow, quota, old(Books()), addr, d)
      ensures S.Away(allow, quota, old(Now()), addr) ==> Books() == old(Books())
      ensures !S.Away(allow, quota, old(Now()), addr) ==> S.Arrived(old(Books()), Books(), addr, d)
      ensures S.Elsewhere(old(Books()), Books(), addr)
    {
      hide Agree, Queued, Joined, Accepted, S.Arrived, S.Elsewhere;
      S.DatagramJoins(Setup(decide, allow, quota), Books(), waitingToClose, addr, d);
      if TurnedAway(allow, quota, addr2token, addr) { return; }
      var t := FindSession(addr);
      Push(t, d);
    }

    lemma BooksAreOk()
      requires Valid()
      ensures S.BookOk(Setup(decide, allow, quota), Books(), waitingToClose)
    {
      hide Agree;
    }

    /** The receive loop of the listener. */
    method ListenerRead(script: seq<Recv>) returns (ok: bool)
      requires Valid()
      modifies `tx, `addr2token, `token2addr, `sockets, `token2life, `life2token, `now, `interest, `waitWrite, `flows
      ensures Valid() && Books() == TakeAll(allow, quota, old(Books()), script) && (ok <==> !ReadFails(script))
      ensures S.AllDelivered(Setup(decide, allow, quota), old(Books()), Books(), script)
    {
      hide Valid, TakeOne, Books, S.AllDelivered, S.BookOk;
      S.AllJoin(Setup(decide, allow, quota), Books(), waitingToClose, script) by { BooksAreOk(); }
      var i := 0;
      assert script[0..] == script;
      while i < |script|
        invariant 0 <= i <= |script|
        invariant Valid() && TakeAll(allow, quota, old(Books()), script) == TakeAll(allow, quota, Books(), script[i..])
        invariant ReadFails(script) == ReadFails(script[i..])
      {
        assert script[i..][0] == script[i] && script[i..][1..] == script[i + 1..];
        if script[i].RecvBlock? { return true; }
        if script[i].RecvFail? { return false; }
        OnDatagram(script[i].from, script[i].bytes);
        i := i + 1;
      }
      return true;
    }

    // -------------------------------------------------------------- replies

    method AddReply(d: Datagram)
      requires listenerInterest == Interest(true, writeBack != []) && replies == returned + writeBack
      modifies `writeBack, `listenerInterest, `replies
      ensures writeBack == old(writeBack) + [d] && replies == old(replies) + [d]
      ensures listenerInterest == Interest(true, writeBack != []) && replies == returned + writeBack
    {
      if writeBack == [] { listenerInterest := Interest(true, true); }
      writeBack := writeBack + [d];
      replies := replies + [d];
      assert old(returned) + (old(writeBack) + [d]) == (old(returned) + old(writeBack)) + [d];
    }

    /** A reply read for a client. */
    method Reply(t: nat, d: seq<Byte>)
      requires Valid() && t in token2addr && t in token2life
      modifies `writeBack, `listenerInterest, `replies, `life2token, `token2life, `now
      ensures Valid() && Now() == old(Stamped(Now(), t)) && t in token2life
      ensures writeBack == old(writeBack) + [Datagram(token2addr[t], d)]
      ensures replies == old(replies) + [Datagram(token2addr[t], d)]
    {
      hide Agree, Stamped;
      AddReply(Datagram(token2addr[t], d));
      Stamp(t);
    }

    /** The receive loop of a session: every datagram that is not empty goes back to its client. */
    method SessionRead(t: nat, script: seq<Recv>)
      requires Valid() && t in token2addr && t in token2life
      modifies `writeBack, `listenerInterest, `replies, `life2token, `token2life, `now, `waitingToClose
      ensures Valid() && Now() == old(StampedTimes(Now(), t, |Payloads(script)|)) && t in token2life
      ensures writeBack == old(writeBack) + Addressed(token2addr[t], Payloads(script))
      ensures waitingToClose == old(waitingToClose) + Marks(t, ReadFails(script))
    {
      hide Tables, Valid, Stamped, Payloads, ReadFails, Addressed;
      var i := 0;
      ghost var n, addr, was, all := 0, token2addr[t], writeBack, Payloads(script);
      assert script[0..] == script;
      while i < |script|
        invariant 0 <= i <= |script| && t in token2life
        invariant Valid() && waitingToClose == old(waitingToClose) && ReadFails(script) == ReadFails(script[i..])
        invariant 0 <= n <= |all| && Now() == old(StampedTimes(Now(), t, n)) && all[n..] == Payloads(script[i..])
        invariant writeBack == was + Addressed(addr, all[..n])
      {
        PayloadStep(script, i);
        if script[i].RecvBlock? { break; }
        if script[i].RecvFail? {
          Mark(t);
          break;
        }
        if script[i].bytes != [] {
          AddressedMore(addr, all, n);
          Reply(t, script[i].bytes);
          n := n + 1;
        }
        i := i + 1;
      }
      if i == |script| { PayloadsEnd(script, i); }
      assert all[..n] == all;
    }

    // -------------------------------------------------------------- sending

    method PutSent(t: nat, rest: seq<seq<Byte>>, target: Option<SockAddr>, ghost r: Sent)
      requires r.queue == rest && r.dst == target
      modifies `waitWrite, `token2dst, `interest
      ensures Now() == old(AfterSends(Now(), t, r))
    {
      if target.Some? { token2dst := token2dst[t := target.value]; }
      if rest == [] {
        waitWrite := waitWrite - {t};
      } else {
        waitWrite := waitWrite[t := rest];
      }
      interest := interest[t := Interest(true, rest != [])];
    }

    ghost function Sending(t: nat, outcomes: seq<SendOutcome>): Sent
      requires t in token2addr
      reads this
    {
      SendAll(decide, token2addr[t], QueueIn(waitWrite, t), DstIn(token2dst, t), outcomes)
    }

    method Send(t: nat, outcomes: seq<SendOutcome>) returns (nwritten: nat)
      requires Valid() && t in token2addr && t in waitWrite
      modifies `waitWrite, `token2dst, `interest, `waitingToClose, `flows
      ensures Now() == old(AfterSends(Now(), t, Sending(t, outcomes))) && nwritten == old(Sending(t, outcomes)).written
      ensures waitingToClose == old(waitingToClose) + Marks(t, old(Sending(t, outcomes)).mark)
      ensures flows == old(flows[t := AfterSend(FlowIn(flows, t), Sending(t, outcomes))])
      ensures Valid()
    {
      hide Agree, AfterSends, SendAll;
      var rest, target, mark;
      ghost var sent;
      rest, sent, target, mark, nwritten :=
        SendQueue(decide, token2addr[t], waitWrite[t], if t in token2dst then Some(token2dst[t]) else None, outcomes);
      ghost var r := Sent(rest, sent, target, mark, nwritten);
      assert r == Sending(t, outcomes);
      PutSent(t, rest, target, r);
      if mark { waitingToClose := waitingToClose + [t]; }
      flows := flows[t := AfterSend(FlowIn(flows, t), r)];
      AgreeSent(decide, quota, old(Now()), old(waitingToClose), old(flows), t, outcomes);
    }

    /** The send loop of a session: a session that sent anything counts as used. */
    method SessionWrite(t: nat, outcomes: seq<SendOutcome>)
      requires Valid() && t in token2addr && t in waitWrite && t in token2life
      modifies `waitWrite, `token2dst, `interest, `waitingToClose, `flows, `life2token, `token2life, `now
      ensures Valid() && Now() == old(Used(Now(), t, Sending(t, outcomes)))
      ensures waitingToClose == old(waitingToClose) + Marks(t, old(Sending(t, outcomes)).mark)
      ensures flows == old(flows[t := AfterSend(FlowIn(flows, t), Sending(t, outcomes))])
    {
      hide Agree, Stamped, SendAll, AfterSends, AfterSend, Sending, QueueIn, DstIn, FlowIn;
      var nwritten := Send(t, outcomes);
      if nwritten > 0 { Stamp(t); }
    }

    method EmptyQueue(outcomes: seq<SendOutcome>)
      requires listenerInterest == Interest(true, writeBack != []) && replies == returned + writeBack
      requires writeBack != []
      modifies `writeBack, `listenerInterest, `returned, `answered
      ensures listenerInterest == Interest(true, writeBack != []) && replies == returned + writeBack
      ensures writeBack == SendBack(old(writeBack), outcomes).queue
      ensures answered == old(answered) + SendBack(old(writeBack), outcomes).sent
    {
      hide SendBack;
      SendBackAccounts(writeBack, outcomes);
      var rest;
      ghost var sent, lost;
      rest, sent, lost := SendReplies(writeBack, outcomes);
      LeaveQueue(returned, writeBack, rest);
      returned := returned + writeBack[..|writeBack| - |rest|];
      writeBack := rest;
      answered := answered + sent;
      if rest == [] { listenerInterest := Interest(true, false); }
    }

    /** The loop that sends replies back to clients. */
    method ListenerWrite(outcomes: seq<SendOutcome>)
      requires Valid() && listenerInterest.writable
      modifies `writeBack, `listenerInterest, `returned, `answered
      ensures Valid() && writeBack == SendBack(old(writeBack), outcomes).queue && Now() == old(Now())
      ensures answered == old(answered) + SendBack(old(writeBack), outcomes).sent
    {
      hide Agree, SendBack;
      EmptyQueue(outcomes);
    }

    // -------------------------------------------------------------- turns

    /** An event for the listener. */
    method OnListener(e: Event) returns (ok: bool)
      requires Valid() && e.AtListener?
      modifies this
      ensures ok <==> Fine(old(WorldOf()), e)
      ensures ok ==> Valid() && WorldOf() == ListenerServed(allow, quota, old(WorldOf()), e)
    {
      hide Agree, TakeAll, Now, SendBack, ReadFails;
      if e.readable {
        ok := ListenerRead(e.script);
        if !ok { return; }
      }
      if e.writable {
        if writeBack == [] { return false; }
        ListenerWrite(e.outcomes);
      }
      return true;
    }

    method ReadIf(e: Event)
      requires Valid() && e.AtSession? && e.token in token2addr && e.token in token2life
      modifies `writeBack, `listenerInterest, `replies, `life2token, `token2life, `now, `waitingToClose
      ensures Valid() && e.token in token2life
      ensures WorldOf() == if e.readable then Hears(old(WorldOf()), e.token, e.script) else old(WorldOf())
    {
      hide Valid, Stamped, StampedTimes, Payloads, ReadFails, Addressed;
      if e.readable { SessionRead(e.token, e.script); }
    }

    method WriteIf(e: Event) returns (ok: bool)
      requires Valid() && e.AtSession? && e.token in token2addr && e.token in token2life
      modifies `waitWrite, `token2dst, `interest, `waitingToClose, `flows, `life2token, `token2life, `now
      ensures Valid() && (ok <==> (e.writable ==> e.token in old(waitWrite)))
      ensures WorldOf() ==
              if e.writable && e.token in old(waitWrite) then Sends(decide, old(WorldOf()), e.token, e.outcomes)
              else old(WorldOf())
    {
      hide Valid, SendAll, AfterSend, Used;
      if e.writable {
        if e.token !in waitWrite { return false; }
        SessionWrite(e.token, e.outcomes);
      }
      return true;
    }

    method MarkIf(e: Event)
      requires Valid() && e.AtSession? && e.token in token2addr
      modifies `waitingToClose
      ensures Valid() && WorldOf() == old(WorldOf()).(marked := old(waitingToClose) + Marks(e.token, e.error))
    {
      hide Valid;
      if e.error { Mark(e.token); }
    }

    /** An event for a session's socket. */
    method OnSession(e: Event) returns (ok: bool)
      requires Valid() && e.AtSession? && e.token in token2addr && e.token in token2life
      modifies this
      ensures ok <==> Fine(old(WorldOf()), e)
      ensures ok ==> Valid() && WorldOf() == SessionServed(decide, old(WorldOf()), e.token, e)
    {
      hide Valid, Sends, Marks, StampedTimes, Payloads, ReadFails, Addressed;
      ReadIf(e);
      ok := WriteIf(e);
      if ok { MarkIf(e); }
    }

    ghost function Set(): Setup { Setup(decide, allow, quota) }

    method OnEvent(e: Event) returns (ok: bool)
      requires Valid()
      modifies this
      ensures ok <==> Fine(old(WorldOf()), e)
      ensures ok ==> Valid() && WorldOf() == Served(Set(), old(WorldOf()), e)
    {
      SocketsLive();
      hide Valid, Tables, SessionServed, ListenerServed;
      match e
      case AtListener(_, _, _, _) => ok := OnListener(e);
      case AtSession(t, _, _, _, _, _) =>
        if t !in sockets { return false; }
        ok := OnSession(e);
    }

    lemma SocketsLive()
      requires Valid()
      ensures sockets == token2addr.Keys && token2life.Keys == token2addr.Keys
    {
    }

    /** One turn of the loop, whatever the clock reads. */
    method Turn(clock: nat, events: seq<Event>) returns (ok: bool)
      requires Valid()
      modifies this
      ensures ok <==> TurnGoes(Set(), old(WorldOf()), clock, events)
      ensures ok ==> Valid() && WorldOf() == Turned(Set(), old(WorldOf()), clock, events)
    {
      hide Tables, Valid, Swept, CanSweep, Served, Fine;
      StartTurn(clock);
      if now < LIFESPAN { return false; }
      ok := Sweep(now - LIFESPAN);
      if !ok { return; }
      var i := 0;
      ghost var was := WorldOf();
      assert events[0..] == events;
      while i < |events|
        invariant 0 <= i <= |events| && Valid()
        invariant AllServed(Set(), was, events) == AllServed(Set(), WorldOf(), events[i..])
        invariant AllFine(Set(), was, events) == AllFine(Set(), WorldOf(), events[i..])
      {
        assert events[i..][0] == events[i] && events[i..][1..] == events[i + 1..];
        ok := OnEvent(events[i]);
        if !ok { return; }
        i := i + 1;
      }
    }

    /** The loop, for every sequence of turns and clock readings. */
    method Listen(turns: Turns) returns (ok: bool)
      requires Valid()
      modifies this
      ensures ok <==> AllGo(Set(), old(WorldOf()), turns)
      ensures ok ==> Valid() && WorldOf() == AllTurned(Set(), old(WorldOf()), turns)
    {
      hide Tables, Valid, Turned, TurnGoes;
      var i := 0;
      ghost var was := WorldOf();
      assert turns[0..] == turns;
      while i < |turns|
        invariant 0 <= i <= |turns| && Valid()
        invariant AllTurned(Set(), was, turns) == AllTurned(Set(), WorldOf(), turns[i..])
        invariant AllGo(Set(), was, turns) == AllGo(Set(), WorldOf(), turns[i..])
      {
        assert turns[i..][0] == turns[i] && turns[i..][1..] == turns[i + 1..];
        ok := Turn(turns[i].0, turns[i].1);
        if !ok { return; }
        i := i + 1;
      }
      ok := true;
    }
  }

  /** Replies that leave the queue join those that have left it. */
  lemma LeaveQueue(returned: seq<Datagram>, queue: seq<Datagram>, rest: seq<Datagram>)
    requires |rest| <= |queue| && rest == queue[|queue| - |rest|..]
    ensures returned + queue == (returned + queue[..|queue| - |rest|]) + rest
  {
  }

  lemma FirstStamps(token2life: map<nat, nat>, list: seq<nat>)
    ensures |StampsOf(token2life, list)| == |list| && NoDup(StampsOf(token2life, list)[..0])
  {
  }

  /** The stamps of the first i on a list, and of one more. */
  lemma StampsNext(token2life: map<nat, nat>, list: seq<nat>, i: nat)
    requires i < |list| && list[i] in token2life && NoDup(StampsOf(token2life, list)[..i])
    ensures var s := StampsOf(token2life, list);
            && |s| == |list| && s[i] == token2life[list[i]] && s[..i] == StampsOf(token2life, list[..i])
            && s[..i + 1] == s[..i] + [s[i]]
            && (NoDup(s[..i + 1]) <==> s[i] !in s[..i]) && (s[i] in s[..i] ==> !NoDup(s))
  {
    var s := StampsOf(token2life, list);
    NoDupNext(s, i);
    assert s[..i] == StampsOf(token2life, list[..i]);
  }

  lemma PayloadStep(script: seq<Recv>, i: nat)
    requires i < |script|
    ensures var r, rest := script[i], script[i + 1..];
            && (!r.Got? ==> Payloads(script[i..]) == [] && ReadFails(script[i..]) == r.RecvFail?)
            && (r.Got? ==> ReadFails(script[i..]) == ReadFails(rest))
            && (r.Got? ==>
                 Payloads(script[i..]) == if r.bytes == [] then Payloads(rest) else [r.bytes] + Payloads(rest))
  {
  }

  lemma PayloadsEnd(script: seq<Recv>, i: nat)
    requires i == |script|
    ensures Payloads(script[i..]) == [] && !ReadFails(script[i..])
  {
  }

  lemma {:induction false} AddressedMore(addr: SockAddr, payloads: seq<seq<Byte>>, n: nat)
    requires n < |payloads|
    ensures Addressed(addr, payloads[..n + 1]) == Addressed(addr, payloads[..n]) + [Datagram(addr, payloads[n])]
  {
  }
}
