/** Where the client of a relayed pair is connected to: the single target, or the one that the rules
    choose for the first bytes it sends. */
module ForwardRouting {
  import opened Bytes
  import opened ForwardPair
  import opened ForwardRuns

  /** The bytes that an event reads first from a client whose stream has not ended. */
  function ChunkOf(e: PairEvent): Option<seq<Byte>> {
    if e.AtClient? && e.e.readable && e.e.script != [] && Kernel(false, e.e.script[0]).Data?
    then Some(e.e.script[0].bytes) else None
  }

  /** The first bytes of a client. */
  function FirstChunk(events: seq<PairEvent>): Option<seq<Byte>> {
    if events == [] then None
    else
      var before := FirstChunk(events[..|events| - 1]);
      if before.Some? then before else ChunkOf(events[|events| - 1])
  }

  /** Where a client is to be connected to, if anywhere. */
  function Choice(rules: Rules, addr: SockAddr, single: Option<SockAddr>, events: seq<PairEvent>): Option<SockAddr> {
    if single.Some? then single
    else if FirstChunk(events).Some? then rules.decide(FirstChunk(events).value, addr)
    else None
  }

  /** A client without a target. */
  predicate Waiting(p: Pair) {
    p.me.open && !p.me.ended && p.me.backlog == None && !p.peer.open && p.peer.backlog == None
  }

  ghost predicate Routed(rules: Rules, addr: SockAddr, single: Option<SockAddr>, events: seq<PairEvent>, p: Pair) {
    var choice := Choice(rules, addr, single, events);
    && (p.over == None && single.None? && FirstChunk(events).None? ==> Waiting(p))
    && (p.over == None && (single.Some? || FirstChunk(events).Some?) ==>
         && p.me.open && p.peer.open && p.peer.to == choice
         && (single.None? ==> choice.Some? && rules.connect(choice.value)))
    && (p.over == Some(NoTarget) ==>
         single.None? && FirstChunk(events).Some? && (choice.Some? ==> !rules.connect(choice.value)))
  }

  // ---------------------------------------------------------------- a connected pair keeps its target

  /** The pair goes on between the same sockets, or ends for another reason than a missing target. */
  predicate Stays(p: Pair, q: Pair) {
    && (q.over == None ==> q.me.open && q.peer.open && q.me.to == p.me.to && q.peer.to == p.peer.to)
    && q.over != Some(NoTarget)
  }

  lemma DataStays(rules: Rules, addr: SockAddr, p: Pair, bytes: seq<Byte>)
    requires p.me.open && p.peer.open && p.over == None
    ensures Stays(p, TakeData(rules, addr, p, bytes)) && TakeData(rules, addr, p, bytes).over == None
  {
  }

  lemma EofStays(p: Pair)
    requires p.me.open && p.peer.open && p.over == None
    ensures Stays(p, TakeEof(p))
  {
  }

  lemma {:induction false} ReadingStays(rules: Rules, addr: SockAddr, p: Pair, script: seq<ReadOutcome>, n: nat)
    requires p.me.open && p.peer.open && p.over == None
    ensures Stays(p, ReadReady(rules, addr, p, script, n))
    decreases |script|
  {
    if script != [] {
      match Kernel(p.me.ended, script[0])
      case Data(bytes) =>
        DataStays(rules, addr, p, bytes);
        hide TakeData;
        ReadingStays(rules, addr, TakeData(rules, addr, p, bytes), script[1..], n + 1);
      case Eof =>
        EofStays(p);
        hide TakeEof;
        if n == 0 && TakeEof(p).over == None { ReadingStays(rules, addr, TakeEof(p), script[1..], n + 1); }
      case _ =>
    }
  }

  lemma WritingStays(cache: nat, p: Pair, writes: seq<WriteOutcome>)
    requires p.me.open && p.peer.open && p.over == None
    ensures Stays(p, WriteReady(cache, p, writes))
  {
    hide Push;
  }

  lemma EndedWritesNone(cache: nat, p: Pair, writes: seq<WriteOutcome>)
    requires p.me.backlog == None
    ensures WriteReady(cache, p, writes) == p
  {
  }

  lemma {:induction false} EndedIsClosed(rules: Rules, addr: SockAddr, p: Pair, script: seq<ReadOutcome>, n: nat)
    requires p.over == None
    ensures var q := ReadReady(rules, addr, p, script, n);
            q.over.Some? ==> q.me.backlog == None
    decreases |script|
  {
    if script != [] {
      match Kernel(p.me.ended, script[0])
      case Data(bytes) =>
        var q := TakeData(rules, addr, p, bytes);
        assert q.over.Some? ==> q.me.backlog == None;
        hide TakeData;
        if q.over == None { EndedIsClosed(rules, addr, q, script[1..], n + 1); }
      case Eof =>
        var q := TakeEof(p);
        assert q.over.Some? ==> q.me.backlog == None;
        hide TakeEof;
        if n == 0 && q.over == None { EndedIsClosed(rules, addr, q, script[1..], n + 1); }
      case _ =>
    }
  }

  lemma SideStays(rules: Rules, addr: SockAddr, p: Pair, e: SideEvent)
    requires p.me.open && p.peer.open && p.over == None
    ensures Stays(p, OnSide(rules, addr, p, e))
  {
    hide ReadReady, WriteReady;
    ReadingStays(rules, addr, p, e.script, 0);
    EndedIsClosed(rules, addr, p, e.script, 0);
    var mid := if e.readable then ReadReady(rules, addr, p, e.script, 0) else p;
    if mid.over == None {
      WritingStays(rules.cache, mid, e.writes);
    } else {
      EndedWritesNone(rules.cache, mid, e.writes);
    }
  }

  // ---------------------------------------------------------------- the first bytes choose

  /** The first bytes of a client open the connection to the address that the rules choose for them; if
      they choose none, or it cannot be reached, the pair ends. */
  lemma FirstBytesChoose(rules: Rules, addr: SockAddr, p: Pair, bytes: seq<Byte>)
    requires Waiting(p) && p.over == None
    ensures var q, choice := TakeData(rules, addr, p, bytes), rules.decide(bytes, addr);
            if choice.Some? && rules.connect(choice.value)
            then q.over == None && q.me.open && q.peer.open && q.peer.to == choice && q.peer.Chunks() == [bytes]
            else q.over == Some(NoTarget) && q.me.backlog == None
  {
  }

  lemma ClientReads(rules: Rules, addr: SockAddr, p: Pair, e: SideEvent)
    requires Waiting(p) && p.over == None
    ensures var q, chunk := OnSide(rules, addr, p, e), ChunkOf(AtClient(e));
            && (chunk.None? ==> (q.over == None ==> Waiting(q)) && q.over != Some(NoTarget))
            && (chunk.Some? ==>
                 var choice := rules.decide(chunk.value, addr);
                 if choice.Some? && rules.connect(choice.value)
                 then q.over != Some(NoTarget) && (q.over == None ==> q.me.open && q.peer.open && q.peer.to == choice)
                 else q.over == Some(NoTarget))
  {
    var chunk := ChunkOf(AtClient(e));
    var mid := if e.readable then ReadReady(rules, addr, p, e.script, 0) else p;
    if chunk.Some? {
      FirstBytesChoose(rules, addr, p, chunk.value);
      var q := TakeData(rules, addr, p, chunk.value);
      assert mid == if q.over.Some? then q else ReadReady(rules, addr, q, e.script[1..], 1);
      hide TakeData, ReadReady, WriteReady;
      if q.over == None {
        ReadingStays(rules, addr, q, e.script[1..], 1);
        EndedIsClosed(rules, addr, q, e.script[1..], 1);
        if mid.over == None { WritingStays(rules.cache, mid, e.writes); }
      }
    }
    hide ReadReady, WriteReady, TakeData;
    if mid.me.backlog == None { EndedWritesNone(rules.cache, mid, e.writes); }
  }

  // ---------------------------------------------------------------- on every run

  lemma StartIsRouted(rules: Rules, addr: SockAddr, single: Option<SockAddr>)
    ensures Routed(rules, addr, single, [], RunPair(rules, addr, single, []))
  {
  }

  lemma EventRoutes(rules: Rules, addr: SockAddr, single: Option<SockAddr>, events: seq<PairEvent>, p: Pair,
                    e: PairEvent)
    requires Routed(rules, addr, single, events, p) && PairOk(rules.cache, p)
    ensures Routed(rules, addr, single, events + [e], OnPair(rules, addr, p, e))
  {
    assert (events + [e])[..|events|] == events;
    if p.over.Some? {
      GoneStays(rules, addr, p, e);
    } else {
      match e
      case AtClient(s) => if p.peer.open { SideStays(rules, addr, p, s); } else { ClientReads(rules, addr, p, s); }
      case AtRemote(s) => if p.peer.open { SideStays(rules, addr, p.Flip(), s); }
      hide PairOk, OnSide;
    }
  }

  /** On every run a client is connected to the single target, if there is one, and otherwise to the one
      that the rules choose for its first bytes, from those bytes on; it is never connected to another.
      A pair ends for want of a target only if they choose none or it cannot be reached. */
  lemma {:induction false} RunIsRouted(rules: Rules, addr: SockAddr, single: Option<SockAddr>, events: seq<PairEvent>)
    ensures Routed(rules, addr, single, events, RunPair(rules, addr, single, events))
  {
    if events == [] {
      StartIsRouted(rules, addr, single);
    } else {
      var before, e := events[..|events| - 1], events[|events| - 1];
      assert before + [e] == events;
      RunIsRouted(rules, addr, single, before);
      RunIsOk(rules, addr, single, before);
      EventRoutes(rules, addr, single, before, RunPair(rules, addr, single, before), e);
      hide Routed, OnPair, PairOk;
    }
  }
}
