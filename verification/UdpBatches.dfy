/** Batches of events as one poll reports them: what a batch finds when its turn comes to be served, so
    that only a sweep or a receive error can end the UDP forwarder; and which batches the next sweep
    cannot clear away. */
module UdpBatches {
  import opened Bytes
  import opened UdpTables
  import opened UdpMachine
  import opened UdpRuns

  // ---------------------------------------------------------------- what a poll reports

  /** Which socket an event is for; the listener has token 0. */
  function Socket(e: Event): nat { if e.AtListener? then 0 else e.token }

  /** What is watched when the poll returns: a session's socket that is there, for writing only if it is
      registered for that; the listener for writing only while replies wait. */
  ghost predicate Reported(w: World, e: Event) {
    match e
    case AtListener(_, _, writable, _) => writable ==> w.back != []
    case AtSession(t, _, _, writable, _, _) => t in w.x.interest && (writable ==> w.x.interest[t].writable)
  }

  /** One batch: no socket twice, and each reported as it was watched when the poll returned. */
  ghost predicate Polled(w: World, events: seq<Event>) {
    && (forall i, j :: 0 <= i < j < |events| ==> Socket(events[i]) != Socket(events[j]))
    && (forall e :: e in events ==> Reported(w, e))
  }

  predicate ReceiveFails(e: Event) { e.AtListener? && e.readable && ReadFails(e.script) }

  /** Receiving at the listener goes well. */
  predicate Receives(events: seq<Event>) { forall e :: e in events ==> !ReceiveFails(e) }

  lemma ReportedIsFine(s: Setup, w: World, e: Event)
    requires Sane(s, w)
    ensures Reported(w, e) && !ReceiveFails(e) <==> Fine(w, e)
  {
    assert e.AtSession? ==> (e.token in w.x.interest.Keys <==> e.token in w.x.token2addr.Keys);
    hide Index, Lives, Flows, ReadFails;
  }

  // ---------------------------------------------------------------- one event leaves the others' claims alone

  lemma {:induction false} TakeAllQueues(s: Setup, b: Book, script: seq<Recv>)
    ensures b.x.waitWrite.Keys <= TakeAll(s.allow, s.quota, b, script).x.waitWrite.Keys
    decreases |script|
  {
    if script != [] && script[0].Got? {
      var next := TakeOne(s.allow, s.quota, b, script[0].from, script[0].bytes);
      assert b.x.waitWrite.Keys <= next.x.waitWrite.Keys;
      hide TakeOne;
      TakeAllQueues(s, next, script[1..]);
    }
  }

  lemma ListenerLeavesFine(s: Setup, w: World, first: Event, e: Event)
    requires Sane(s, w) && first.AtListener? && e.AtSession? && Fine(w, e)
    ensures Fine(Served(s, w, first), e)
  {
    hide Agree, TakeAll, SendBack;
    TakeAllKeeps(s, Book(w.x, w.flows), w.marked, first.script);
    TakeAllQueues(s, Book(w.x, w.flows), first.script);
    var x, y := w.x, Served(s, w, first).x;
    assert e.token in x.token2addr.Keys ==> e.token in y.token2addr.Keys;
    assert e.token in x.waitWrite.Keys ==> e.token in y.waitWrite.Keys;
  }

  lemma SendsLeave(s: Setup, w: World, t: nat, outcomes: seq<SendOutcome>, u: nat)
    requires u != t
    ensures var y := Sends(s.decide, w, t, outcomes);
            y.x.token2addr == w.x.token2addr && (u in y.x.waitWrite <==> u in w.x.waitWrite) && y.back == w.back
  {
    hide SendAll;
  }

  lemma HearsAdds(w: World, t: nat, script: seq<Recv>)
    ensures var a := Hears(w, t, script);
            a.x.token2addr == w.x.token2addr && a.x.waitWrite == w.x.waitWrite && w.back <= a.back
  {
    if t in w.x.token2addr && t in w.x.token2life { HearsLeaves(w, t, script); }
  }

  lemma SessionLeavesFine(s: Setup, w: World, first: Event, e: Event)
    requires first.AtSession? && Fine(w, e) && (e.AtSession? ==> e.token != first.token)
    ensures Fine(Served(s, w, first), e)
  {
    hide Hears, Sends, ReadFails;
    var t := first.token;
    var a := if first.readable then Hears(w, t, first.script) else w;
    HearsAdds(w, t, first.script);
    SendsLeave(s, a, t, first.outcomes, if e.AtSession? then e.token else t + 1);
  }

  lemma OthersStayFine(s: Setup, w: World, first: Event, e: Event)
    requires Sane(s, w) && Fine(w, e) && Socket(first) != Socket(e)
    ensures Fine(Served(s, w, first), e)
  {
    hide Sane, Fine, Served;
    if first.AtListener? {
      ListenerLeavesFine(s, w, first, e);
    } else {
      SessionLeavesFine(s, w, first, e);
    }
  }

  /** The claims of a batch: no socket twice, and each event fine. */
  ghost predicate Claims(w: World, events: seq<Event>) {
    && (forall i, j :: 0 <= i < j < |events| ==> Socket(events[i]) != Socket(events[j]))
    && (forall e :: e in events ==> Fine(w, e))
  }

  lemma ClaimsStay(s: Setup, w: World, events: seq<Event>)
    requires Sane(s, w) && Claims(w, events) && events != []
    ensures Fine(w, events[0]) && Claims(Served(s, w, events[0]), events[1..])
  {
    hide Sane, Fine, Served, Socket;
    assert events[0] in events;
    forall e | e in events[1..] ensures Fine(Served(s, w, events[0]), e) {
      var i :| 0 < i < |events| && events[i] == e;
      assert e in events;
      OthersStayFine(s, w, events[0], e);
    }
  }

  lemma {:induction false} ClaimsAreMet(s: Setup, w: World, events: seq<Event>)
    requires Sane(s, w) && Claims(w, events)
    ensures AllFine(s, w, events)
    decreases |events|
  {
    hide Sane, Claims, Served, Fine;
    if events != [] {
      ClaimsStay(s, w, events);
      ServedKeeps(s, w, events[0]);
      ClaimsAreMet(s, Served(s, w, events[0]), events[1..]);
    }
  }

  lemma ReceiveErrorEnds(s: Setup, w: World, events: seq<Event>)
    requires AllFine(s, w, events)
    ensures Receives(events)
    decreases |events|
  {
    hide Served, ReadFails;
    if events != [] {
      ReceiveErrorEnds(s, Served(s, w, events[0]), events[1..]);
      assert forall e :: e in events ==> e == events[0] || e in events[1..];
    }
  }

  lemma PolledClaims(s: Setup, w: World, events: seq<Event>)
    requires Sane(s, w) && Polled(w, events) && Receives(events)
    ensures Claims(w, events)
  {
    hide Sane, Fine, ReceiveFails;
    forall e | e in events ensures Fine(w, e) { ReportedIsFine(s, w, e); }
  }

  /** Every event of a batch finds what it takes for granted when it is served, however many events of
      other sockets were served before it, exactly when receiving goes well: a session that is reported
      writable finds a queue entry, the listener a reply to send. */
  lemma BatchIsFine(s: Setup, w: World, events: seq<Event>)
    requires Sane(s, w) && Polled(w, events)
    ensures AllFine(s, w, events) <==> Receives(events)
  {
    hide Sane, Polled, AllFine, Receives, Claims;
    if Receives(events) {
      PolledClaims(s, w, events);
      ClaimsAreMet(s, w, events);
    }
    if AllFine(s, w, events) { ReceiveErrorEnds(s, w, events); }
  }

  // ---------------------------------------------------------------- runs of batches

  /** Each turn that can start is served a batch as the poll reports it then. */
  ghost predicate AllPolled(s: Setup, w: World, turns: Turns)
    decreases |turns|
  {
    turns == [] ||
    (CanStart(w, turns[0].0) ==>
      Polled(Started(w, turns[0].0), turns[0].1) && AllPolled(s, Turned(s, w, turns[0].0, turns[0].1), turns[1..]))
  }

  /** Every sweep can be made, and receiving goes well in every turn. */
  ghost predicate AllStart(s: Setup, w: World, turns: Turns)
    decreases |turns|
  {
    turns == [] ||
    (CanStart(w, turns[0].0) && Receives(turns[0].1) && AllStart(s, Turned(s, w, turns[0].0, turns[0].1), turns[1..]))
  }

  /** With batches as a poll reports them, a run fails only where a sweep cannot be made, or receiving at
      the listener fails. */
  lemma {:induction false} OnlySweepsFail(s: Setup, w: World, turns: Turns)
    requires Sane(s, w) && AllPolled(s, w, turns)
    ensures AllGo(s, w, turns) <==> AllStart(s, w, turns)
    decreases |turns|
  {
    hide Sane, Started, AllServed, AllFine, CanStart, Polled, Receives;
    if turns != [] && CanStart(w, turns[0].0) {
      var v := Started(w, turns[0].0);
      StartedKeeps(s, w, turns[0].0);
      BatchIsFine(s, v, turns[0].1);
      if AllFine(s, v, turns[0].1) {
        AllServedKeeps(s, v, turns[0].1);
        OnlySweepsFail(s, Turned(s, w, turns[0].0, turns[0].1), turns[1..]);
      }
    }
  }

  /** After every run of the loop: client addresses and sessions mirror each other; a socket is watched
      for writing exactly while there is a queue entry; whatever batch the poll reports next is fine, so
      that the listener finds a reply and a session its queue entry whenever they are told to write; and
      unless it is marked for closing, what a session accepted is what it sent followed by what waits,
      all of it for the target of its first datagram. If stamps could not collide in any turn, stamps
      and sessions mirror each other too. */
  lemma SessionsAgree(s: Setup, turns: Turns, t: nat)
    requires AllGo(s, EMPTY, turns) && t in AllTurned(s, EMPTY, turns).x.token2addr
    ensures var w := AllTurned(s, EMPTY, turns);
            var x := w.x;
            && x.token2addr[t] in x.addr2token && x.addr2token[x.token2addr[t]] == t
            && t in x.token2life && t in x.interest && (x.interest[t].writable <==> t in x.waitWrite)
            && (forall a :: a in FlowIn(w.flows, t).targets ==> DstIn(x.token2dst, t) == Some(a))
            && (t !in w.marked ==>
                 && FlowIn(w.flows, t).accepted == FlowIn(w.flows, t).sent + QueueIn(x.waitWrite, t)
                 && (FlowIn(w.flows, t).sent != [] ==>
                      DstIn(x.token2dst, t) == s.decide(FlowIn(w.flows, t).accepted[0], x.token2addr[t])))
            && (AllSafe(s, EMPTY, turns) ==>
                 x.token2life[t] in x.life2token && x.life2token[x.token2life[t]] == t)
    ensures var w := AllTurned(s, EMPTY, turns);
            forall clock, events :: Polled(Started(w, clock), events) && Receives(events) ==>
              AllFine(s, Started(w, clock), events)
  {
    hide Sane, AllTurned, AllGo, FlowIn, QueueIn, DstIn, AllSafe, Started, Polled, Receives, AllFine;
    var w := AllTurned(s, EMPTY, turns);
    EmptyIsSane(s);
    AllTurnedKeeps(s, EMPTY, turns);
    WhatTablesSay(s, w, t);
    if AllSafe(s, EMPTY, turns) { AllTurnedIndexed(s, EMPTY, turns); }
    forall clock, events | Polled(Started(w, clock), events) && Receives(events)
      ensures AllFine(s, Started(w, clock), events)
    {
      StartedKeeps(s, w, clock);
      BatchIsFine(s, Started(w, clock), events);
    }
  }

  // ---------------------------------------------------------------- what the next sweep makes of a batch

  /** Each session is given at most one reason to be closed, at the time its event is served. */
  ghost predicate OneReasonEach(s: Setup, w: World, events: seq<Event>)
    decreases |events|
  {
    events != [] ==>
      && (events[0].AtSession? ==> events[0].token in w.x.token2addr && Reasons(s, w, events[0]) <= 1)
      && OneReasonEach(s, Served(s, w, events[0]), events[1..])
  }

  lemma ServedMarks(s: Setup, w: World, e: Event)
    ensures w.marked <= Served(s, w, e).marked
  {
    hide SendAll, StampedTimes;
  }

  lemma {:induction false} MarksStay(s: Setup, w: World, events: seq<Event>)
    ensures w.marked <= AllServed(s, w, events).marked
    decreases |events|
  {
    hide Served;
    if events != [] {
      ServedMarks(s, w, events[0]);
      MarksStay(s, Served(s, w, events[0]), events[1..]);
    }
  }

  /** None of the sockets of a batch is marked yet. */
  ghost predicate Unmarked(w: World, events: seq<Event>) {
    && (forall i, j :: 0 <= i < j < |events| ==> Socket(events[i]) != Socket(events[j]))
    && (forall e :: e in events && e.AtSession? ==> e.token !in w.marked)
  }

  lemma MarkedOnce(s: Setup, w: World, e: Event)
    requires Sane(s, w) && Fine(w, e) && NoDup(w.marked) && (e.AtSession? ==> e.token !in w.marked)
    ensures var y := Served(s, w, e);
            && (NoDup(y.marked) <==> e.AtSession? ==> Reasons(s, w, e) <= 1)
            && forall t :: t in y.marked ==> t in w.marked || (e.AtSession? && t == e.token)
  {
    hide Sane, Served, Reasons, Fine, NoDup;
    ListenerMarksNone(s, w, e);
    if e.AtSession? {
      EventMarks(s, w, e);
      CopiesAdded(w.marked, Served(s, w, e).marked, e.token);
    }
  }

  lemma ListenerMarksNone(s: Setup, w: World, e: Event)
    ensures e.AtListener? ==> Served(s, w, e).marked == w.marked
  {
    hide TakeAll, SendBack, SessionServed;
  }

  lemma CopiesAdded(a: seq<nat>, m: seq<nat>, t: nat)
    requires a <= m && t !in a && NoDup(a) && forall i :: |a| <= i < |m| ==> m[i] == t
    ensures NoDup(m) <==> |m| <= |a| + 1
    ensures forall u :: u in m ==> u in a || u == t
  {
    var n := |a|;
    assert m[..n] == a;
    if |m| == n + 1 {
      assert m == a + [t];
      NoDupPush(a, t);
    } else if |m| > n {
      assert m[|m| - 1] == m[..|m| - 1][n];
    } else {
      assert m == a;
    }
  }

  lemma UnmarkedStays(s: Setup, w: World, events: seq<Event>)
    requires events != [] && Unmarked(w, events)
    requires forall t :: t in Served(s, w, events[0]).marked ==>
      t in w.marked || (events[0].AtSession? && t == events[0].token)
    ensures (events[0].AtSession? ==> events[0].token !in w.marked) && Unmarked(Served(s, w, events[0]), events[1..])
  {
    hide Served;
    assert events[0] in events;
    forall e | e in events[1..] && e.AtSession? ensures e.token !in Served(s, w, events[0]).marked {
      var i :| 0 < i < |events| && events[i] == e;
      assert e in events && Socket(events[0]) != Socket(events[i]);
    }
  }

  lemma {:induction false} MarksOfBatch(s: Setup, w: World, events: seq<Event>)
    requires Sane(s, w) && AllFine(s, w, events) && NoDup(w.marked) && Unmarked(w, events)
    ensures NoDup(AllServed(s, w, events).marked) <==> OneReasonEach(s, w, events)
    decreases |events|
  {
    hide Sane, Fine, Served, Unmarked, NoDup, Reasons;
    if events != [] {
      var e, y := events[0], Served(s, w, events[0]);
      FirstUnmarked(w, events);
      MarkedOnce(s, w, e);
      FineIsThere(w, e);
      ServedKeeps(s, w, e);
      UnmarkedStays(s, w, events);
      if NoDup(y.marked) {
        MarksOfBatch(s, y, events[1..]);
      } else {
        MarksStay(s, y, events[1..]);
        var m := AllServed(s, y, events[1..]).marked;
        assert m[..|y.marked|] == y.marked;
        if NoDup(m) { NoDupFront(m, |y.marked|); }
      }
    }
  }

  lemma FirstUnmarked(w: World, events: seq<Event>)
    requires events != [] && Unmarked(w, events)
    ensures events[0].AtSession? ==> events[0].token !in w.marked
  {
    assert events[0] in events;
  }

  lemma FineIsThere(w: World, e: Event)
    requires Fine(w, e)
    ensures e.AtSession? ==> e.token in w.x.token2addr
  {
  }

  lemma {:induction false} StampsApart(token2life: map<nat, nat>, list: seq<nat>)
    requires forall t :: t in list ==> t in token2life
    requires forall t, u :: t in list && u in list && token2life[t] == token2life[u] ==> t == u
    ensures NoDup(StampsOf(token2life, list)) <==> NoDup(list)
    decreases |list|
  {
    if list != [] {
      var n := |list| - 1;
      var rest, last := list[..n], list[n];
      StampsApart(token2life, rest);
      var all := StampsOf(token2life, list);
      assert all[..n] == StampsOf(token2life, rest) && all[n] == token2life[last];
      assert forall i :: 0 <= i < n ==> list[i] in list && (all[i] == all[n] <==> list[i] == last);
      assert all[n] in all[..n] <==> last in rest by {
        assert forall i :: 0 <= i < n ==> rest[i] == list[i] && all[..n][i] == all[i];
      }
    }
  }

  lemma SweepOfMarked(s: Setup, w: World, limit: nat)
    requires Sane(s, w) && Indexed(w.x)
    ensures forall t :: t in w.marked ==> t in w.x.token2life
    ensures CanSweep(w, limit) <==> NoDup(w.marked) && forall t :: t in w.marked ==> w.x.token2life[t] >= limit
  {
    forall t | t in w.marked ensures t in w.x.token2life { TokenLives(s, w, t); }
    StampsApart(w.x.token2life, w.marked);
    hide Agree, NoDup, StampsOf;
  }

  /** The next sweep after a batch can be made exactly when every session was given at most one reason to
      be closed, and none of those that were is outdated by then as well. */
  lemma OneReasonOnly(s: Setup, w: World, events: seq<Event>, clock: nat)
    requires Sane(s, w) && w.marked == [] && Indexed(w.x) && Safe(s, w.x) && Polled(w, events) && Receives(events)
    ensures var y := AllServed(s, w, events);
            var now := TurnTime(clock, y.x.life2token.Keys);
            && (forall t :: t in y.marked ==> t in y.x.token2life)
            && (CanStart(y, clock) <==>
                 LIFESPAN <= now && OneReasonEach(s, w, events)
                 && forall t :: t in y.marked ==> now - LIFESPAN <= y.x.token2life[t])
  {
    hide Sane, Indexed, Safe, AllServed, AllFine, OneReasonEach, Receives, CanSweep, TurnTime, NoDup;
    var y := AllServed(s, w, events);
    BatchIsFine(s, w, events);
    AllServedKeeps(s, w, events);
    SafeIsKept(s, w, events);
    NothingIsMarked(w, events);
    MarksOfBatch(s, w, events);
    SweepOfMarked(s, y, Limit(AtTime(y, clock).x.now));
    SweepAtTime(y, clock);
  }

  lemma NothingIsMarked(w: World, events: seq<Event>)
    requires w.marked == [] && Polled(w, events)
    ensures NoDup(w.marked) && Unmarked(w, events)
  {
  }

  lemma SweepAtTime(y: World, clock: nat)
    ensures var v := AtTime(y, clock);
            && v.x.now == TurnTime(clock, y.x.life2token.Keys)
            && (CanSweep(v, Limit(v.x.now)) <==> CanSweep(y, Limit(v.x.now)))
  {
    hide TurnTime, Limit;
  }
}
