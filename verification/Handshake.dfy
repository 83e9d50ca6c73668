/** The proxy handshake as a function of the client's bytes: protocol detection, the SOCKS5 greeting
    and request, the HTTP request, and the dial that ends it. */
module Handshake {
  import opened Bytes
  import opened Oracles
  import opened HttpRewrite
  import opened HttpFraming
  import opened Socks5Codec

  datatype Phase = DetectProtocol | Greeting | Request | Connecting | Relay | Closing

  const BAD_GATEWAY: seq<Byte> := Ascii("HTTP/1.1 502 Bad Gateway") + CRLF + Ascii("Content-Length: 0") + BLANK
  const ESTABLISHED: seq<Byte> := Ascii("HTTP/1.1 200 Connection Established") + BLANK
  const NO_AUTH: Byte := 0x00
  const GREETING_OK: seq<Byte> := [VERSION, NO_AUTH]
  const GREETING_REFUSED: seq<Byte> := [VERSION, 0xFF]

  /** Where a handshake stands. replies: what it has queued for the client; upstream: what it has
      queued for the remote; closing: close once the replies are flushed; doomed: to be closed
      without a reply; dialled: a connection to the target was started. */
  datatype Hs = Hs(
    phase: Phase, protocol: Protocol, target: Option<SockAddr>, display: Option<seq<Byte>>,
    clientIn: seq<Byte>, replies: seq<Byte>, upstream: seq<Byte>,
    closing: bool, doomed: bool, dialled: bool)

  const INITIAL: Hs := Hs(DetectProtocol, Unknown, None, None, [], [], [], false, false, false)

  /** Start a connection to the target; when that fails at once, queue the given reply and close. */
  function Dial(env: Env, h: Hs, target: SockAddr, failure: seq<Byte>): (r: Hs) {
    if env.connect(target) then h.(phase := Connecting, dialled := true)
    else h.(phase := Closing, closing := true, replies := h.replies + failure)
  }

  /** What the first bytes of an HTTP request do, given their parse. */
  function HttpStep(env: Env, h: Hs, parse: Parse<HttpRequest>): Hs {
    match parse
    case Incomplete => h
    case Malformed(_) => h.(doomed := true)
    case Done(r) =>
      var rest := h.clientIn[Min(r.consumed, |h.clientIn|)..];
      var taken := h.(
        clientIn := if r.upstream != [] && r.protocol == HttpForward then [] else rest,
        target := Some(r.target), display := Some(r.display), protocol := r.protocol,
        upstream := h.upstream + r.upstream);
      Dial(env, taken, r.target, BAD_GATEWAY)
  }

  function DetectStep(env: Env, h: Hs, parse: Parse<HttpRequest>): Hs {
    if h.clientIn == [] then h
    else if h.clientIn[0] == VERSION then h.(protocol := Socks5, phase := Greeting)
    else HttpStep(env, h, parse)
  }

  function GreetingStep(h: Hs): Hs {
    if |h.clientIn| < 2 then h else
      var n := h.clientIn[1] as int;
      if |h.clientIn| < 2 + n then h else
        var rest := h.(clientIn := h.clientIn[2 + n..]);
        if NO_AUTH in h.clientIn[2..2 + n]
        then rest.(replies := h.replies + GREETING_OK, phase := Request)
        else rest.(replies := h.replies + GREETING_REFUSED, closing := true, phase := Closing)
  }

  function RequestStep(env: Env, h: Hs): Hs {
    match ParseTarget(env, h.clientIn)
    case Incomplete => h
    case Malformed(reason) =>
      h.(replies := h.replies + EncodeReply(RefusalCode(reason), UNSPECIFIED), closing := true, phase := Closing)
    case Done(r) =>
      var taken := h.(clientIn := h.clientIn[Min(r.consumed, |h.clientIn|)..], target := Some(r.target),
                      display := Some(r.display), protocol := Socks5);
      Dial(env, taken, r.target, EncodeReply(REP_REFUSED, UNSPECIFIED))
  }

  /** One turn of the state loop; it leaves the phase alone exactly when the loop breaks there. */
  function Step(env: Env, h: Hs): Hs {
    match h.phase
    case DetectProtocol => DetectStep(env, h, ParseHttp(env, h.clientIn))
    case Greeting => GreetingStep(h)
    case Request => RequestStep(env, h)
    case _ => h
  }

  function Rank(p: Phase): nat {
    match p
    case DetectProtocol => 0
    case Greeting => 1
    case Request => 2
    case Connecting => 3
    case Relay => 4
    case Closing => 5
  }

  /** The state loop: steps until the phase stays. */
  function Run(env: Env, h: Hs): (r: Hs)
    ensures Rank(h.phase) <= Rank(r.phase)
    decreases 5 - Rank(h.phase)
  {
    var s := Step(env, h);
    if s.phase == h.phase then s else Run(env, s)
  }

  function Feed(env: Env, h: Hs, bytes: seq<Byte>): Hs {
    Run(env, h.(clientIn := h.clientIn + bytes))
  }

  function FeedAll(env: Env, h: Hs, cuts: seq<seq<Byte>>): Hs {
    if cuts == [] then h else Feed(env, FeedAll(env, h, cuts[..|cuts| - 1]), cuts[|cuts| - 1])
  }

  /** The whole handshake on one read of all the bytes. */
  function Plan(env: Env, bytes: seq<Byte>): Hs { Feed(env, INITIAL, bytes) }

  /** What is to reach the remote: queued bytes, then what is still in the client's buffer. */
  function Content(h: Hs): seq<Byte> { h.upstream + h.clientIn }

  /** Equal up to how the upstream content is divided between queue and buffer. */
  ghost predicate Same(a: Hs, b: Hs) {
    && Content(a) == Content(b)
    && a.(clientIn := b.clientIn, upstream := b.upstream) == b
  }

  predicate Early(p: Phase) { p == DetectProtocol || p == Greeting || p == Request }

  /** What every reachable handshake satisfies. */
  ghost predicate Fresh(env: Env, h: Hs) {
    && (Early(h.phase) ==> h.upstream == [] && !h.dialled && !h.closing)
    && (h.phase == Connecting ==> h.dialled && !h.closing && h.target.Some? && h.protocol != Unknown)
    && (h.phase == Closing ==> h.closing && !h.dialled && h.replies != [])
    && (h.phase == DetectProtocol ==> h.replies == [] && h.protocol == Unknown)
    && (h.phase == Greeting ==> h.replies == [] && h.protocol == Socks5)
    && (h.phase == Request ==> h.replies == GREETING_OK && h.protocol == Socks5)
    && (h.phase == Connecting ==> h.replies == if h.protocol == Socks5 then GREETING_OK else [])
    && (h.doomed ==> h.phase == DetectProtocol && h.clientIn != [] && h.clientIn[0] != VERSION)
    && (h.doomed ==> ParseHttp(env, h.clientIn).Malformed?)
    && h.phase != Relay
  }

  function More(h: Hs, bytes: seq<Byte>): Hs { h.(clientIn := h.clientIn + bytes) }

  lemma MoreKeepsFresh(env: Env, h: Hs, bytes: seq<Byte>)
    requires Fresh(env, h)
    ensures Fresh(env, More(h, bytes))
  {
    if h.doomed {
      VerdictIsStable(env, h.clientIn, bytes);
    }
  }

  lemma StepKeepsFresh(env: Env, h: Hs)
    requires Fresh(env, h)
    ensures Fresh(env, Step(env, h))
  {
    hide ParseHttp, ParseTarget;
    assert BAD_GATEWAY != [];
    ParseOnMore(env, h.clientIn, []);
  }

  lemma {:induction false} RunKeepsFresh(env: Env, h: Hs)
    requires Fresh(env, h)
    ensures Fresh(env, Run(env, h))
    decreases 5 - Rank(h.phase)
  {
    StepKeepsFresh(env, h);
    if Step(env, h).phase != h.phase {
      RunKeepsFresh(env, Step(env, h));
    }
  }

  // ---------------------------------------------------------------- segmentation

  lemma HttpStepOnMore(env: Env, h: Hs, bytes: seq<Byte>, r: HttpRequest)
    requires r.consumed <= |h.clientIn| && (r.protocol == HttpForward ==> r.upstream != [])
    ensures Same(HttpStep(env, More(h, bytes), Done(WithMoreBody(r, bytes))), More(HttpStep(env, h, Done(r)), bytes))
  {
    var n := r.consumed;
    assert (h.clientIn + bytes)[n..] == h.clientIn[n..] + bytes;
    var a := HttpStep(env, More(h, bytes), Done(WithMoreBody(r, bytes)));
    var b := More(HttpStep(env, h, Done(r)), bytes);
    if r.protocol == HttpForward {
      assert Content(a) == h.upstream + (r.upstream + bytes) + [];
      assert Content(b) == h.upstream + r.upstream + ([] + bytes);
    }
  }

  lemma DetectOnMore(env: Env, h: Hs, bytes: seq<Byte>, p: Parse<HttpRequest>, q: Parse<HttpRequest>)
    requires h.phase == DetectProtocol
    requires p.Malformed? ==> q == p
    requires p.Done? ==> q == Done(WithMoreBody(p.value, bytes)) && p.value.consumed <= |h.clientIn|
    requires p.Done? && p.value.protocol == HttpForward ==> p.value.upstream != []
    ensures var s, l := DetectStep(env, h, p), DetectStep(env, More(h, bytes), q);
            && (s.phase != h.phase ==> Same(l, More(s, bytes)))
            && (s.phase == h.phase ==> DetectStep(env, More(s, bytes), q) == l)
  {
    if p.Done? {
      HttpStepOnMore(env, h, bytes, p.value);
    }
  }

  lemma ParseOnMore(env: Env, buf: seq<Byte>, bytes: seq<Byte>)
    ensures var p, q := ParseHttp(env, buf), ParseHttp(env, buf + bytes);
            && (p.Malformed? ==> q == p)
            && (p.Done? ==> q == Done(WithMoreBody(p.value, bytes)) && p.value.consumed <= |buf|)
            && (p.Done? ==> p.value.protocol == HttpTunnel || p.value.protocol == HttpForward)
            && (p.Done? && p.value.protocol == HttpForward ==> p.value.upstream != [])
  {
    hide ParseHttp;
    if !ParseHttp(env, buf).Incomplete? { VerdictIsStable(env, buf, bytes); }
  }

  lemma GreetingOnMore(h: Hs, bytes: seq<Byte>)
    requires h.phase == Greeting
    ensures var s, l := GreetingStep(h), GreetingStep(More(h, bytes));
            if s.phase != h.phase then l == More(s, bytes) else s == h
  {
    var s, l := h.clientIn, h.clientIn + bytes;
    if |s| >= 2 && |s| >= 2 + s[1] as int {
      var n := s[1] as int;
      assert l[2..2 + n] == s[2..2 + n] && l[2 + n..] == s[2 + n..] + bytes;
    }
  }

  lemma RequestOnMore(env: Env, h: Hs, bytes: seq<Byte>)
    requires h.phase == Request
    ensures var s, l := RequestStep(env, h), RequestStep(env, More(h, bytes));
            if s.phase != h.phase then l == More(s, bytes) else s == h
  {
    var s, l := h.clientIn, h.clientIn + bytes;
    if !ParseTarget(env, s).Incomplete? {
      TargetIsStable(env, s, bytes);
      if ParseTarget(env, s).Done? {
        var n := ParseTarget(env, s).value.consumed;
        assert l[n..] == s[n..] + bytes;
      }
    }
  }

  lemma DetectPhaseOnMore(env: Env, h: Hs, bytes: seq<Byte>)
    requires h.phase == DetectProtocol
    ensures Step(env, h).phase != h.phase ==> Same(Step(env, More(h, bytes)), More(Step(env, h), bytes))
    ensures Step(env, h).phase == h.phase ==> Step(env, More(Step(env, h), bytes)) == Step(env, More(h, bytes))
  {
    hide ParseHttp; hide WithMoreBody;
    var p, q := ParseHttp(env, h.clientIn), ParseHttp(env, h.clientIn + bytes);
    var s, l := DetectStep(env, h, p), DetectStep(env, More(h, bytes), q);
    assert (p.Malformed? ==> q == p)
        && (p.Done? ==> q == Done(WithMoreBody(p.value, bytes)) && p.value.consumed <= |h.clientIn|)
        && (p.Done? && p.value.protocol == HttpForward ==> p.value.upstream != []) by {
      ParseOnMore(env, h.clientIn, bytes);
    }
    DetectOnMore(env, h, bytes, p, q);
    assert Step(env, h) == s;
    assert Step(env, More(h, bytes)) == l;
    if s.phase == h.phase {
      assert s.clientIn == h.clientIn;
      assert Step(env, More(s, bytes)) == DetectStep(env, More(s, bytes), q);
    }
  }

  /** A step taken on a shorter buffer is taken on a longer one, with the extra bytes left over. */
  lemma StepOnMore(env: Env, h: Hs, bytes: seq<Byte>)
    ensures Step(env, h).phase != h.phase ==> Same(Step(env, More(h, bytes)), More(Step(env, h), bytes))
    ensures Step(env, h).phase == h.phase ==> Step(env, More(Step(env, h), bytes)) == Step(env, More(h, bytes))
  {
    if h.phase == DetectProtocol {
      DetectPhaseOnMore(env, h, bytes);
    } else if h.phase == Greeting {
      GreetingOnMore(h, bytes);
    } else if h.phase == Request {
      RequestOnMore(env, h, bytes);
    }
  }

  lemma SameRuns(env: Env, a: Hs, b: Hs)
    requires Fresh(env, a) && Fresh(env, b) && Same(a, b)
    ensures Same(Run(env, a), Run(env, b))
  {
    if Early(a.phase) {
      assert Content(a) == a.clientIn && Content(b) == b.clientIn;
      assert a == b;
    }
  }

  /** Two reads come to the same as one read of both. */
  lemma {:induction false} FeedTwice(env: Env, h: Hs, bytes: seq<Byte>)
    requires Fresh(env, h)
    ensures Same(Run(env, More(Run(env, h), bytes)), Run(env, More(h, bytes)))
    decreases 5 - Rank(h.phase)
  {
    var s := Step(env, h);
    StepOnMore(env, h, bytes);
    if s.phase == h.phase {
      var x, y := More(s, bytes), More(h, bytes);
      assert Step(env, x) == Step(env, y) && x.phase == y.phase;
      assert Run(env, x) == Run(env, y);
    } else {
      StepKeepsFresh(env, h);
      FeedTwice(env, s, bytes);
      MoreKeepsFresh(env, s, bytes);
      MoreKeepsFresh(env, h, bytes);
      StepKeepsFresh(env, More(h, bytes));
      SameRuns(env, Step(env, More(h, bytes)), More(s, bytes));
    }
  }

  lemma {:induction false} FeedAllIsFresh(env: Env, cuts: seq<seq<Byte>>)
    ensures Fresh(env, FeedAll(env, INITIAL, cuts))
  {
    if cuts != [] {
      var n := |cuts| - 1;
      FeedAllIsFresh(env, cuts[..n]);
      MoreKeepsFresh(env, FeedAll(env, INITIAL, cuts[..n]), cuts[n]);
      RunKeepsFresh(env, More(FeedAll(env, INITIAL, cuts[..n]), cuts[n]));
    }
  }

  lemma PlanIsFresh(env: Env, bytes: seq<Byte>)
    ensures Fresh(env, Plan(env, bytes))
  {
    MoreKeepsFresh(env, INITIAL, bytes);
    RunKeepsFresh(env, More(INITIAL, bytes));
  }

  /** Running the loop after a further read gives the plan of the longer text. */
  lemma PlanAdvances(env: Env, bytes: seq<Byte>, more: seq<Byte>, h: Hs)
    requires Fresh(env, h) && Same(h, More(Plan(env, bytes), more))
    ensures Same(Run(env, h), Plan(env, bytes + more)) && Fresh(env, Run(env, h))
  {
    hide Fresh, Run, Same;
    var p := Plan(env, bytes);
    PlanIsFresh(env, bytes);
    MoreKeepsFresh(env, p, more);
    SameRuns(env, h, More(p, more));
    MoreKeepsFresh(env, INITIAL, bytes);
    FeedTwice(env, More(INITIAL, bytes), more);
    assert More(More(INITIAL, bytes), more) == More(INITIAL, bytes + more);
    RunKeepsFresh(env, h);
    SameIsTransitive(Run(env, h), Run(env, More(p, more)), Plan(env, bytes + more));
  }

  lemma SameIsTransitive(a: Hs, b: Hs, c: Hs)
    requires Same(a, b) && Same(b, c)
    ensures Same(a, c)
  {
  }

  lemma SameOnMore(a: Hs, b: Hs, bytes: seq<Byte>)
    requires Same(a, b)
    ensures Same(More(a, bytes), More(b, bytes))
  {
    assert Content(More(a, bytes)) == Content(a) + bytes;
    assert Content(More(b, bytes)) == Content(b) + bytes;
  }

  /** However the client's bytes are cut into reads, the handshake reaches the same phase, protocol,
      target, replies and upstream content as on one read of all of them. */
  lemma {:induction false} SegmentationIndependence(env: Env, cuts: seq<seq<Byte>>)
    ensures Same(FeedAll(env, INITIAL, cuts), Plan(env, Flat(cuts)))
  {
    if cuts == [] {
      assert More(INITIAL, []) == INITIAL;
    } else {
      var n := |cuts| - 1;
      SegmentationIndependence(env, cuts[..n]);
      FeedAllIsFresh(env, cuts[..n]);
      var h := FeedAll(env, INITIAL, cuts[..n]);
      SameOnMore(h, Plan(env, Flat(cuts[..n])), cuts[n]);
      MoreKeepsFresh(env, h, cuts[n]);
      PlanAdvances(env, Flat(cuts[..n]), cuts[n], More(h, cuts[n]));
      FlatPush(cuts[..n], cuts[n]);
      assert cuts == cuts[..n] + [cuts[n]];
    }
  }

  // ---------------------------------------------------------------- what the handshake means

  function GreetingBytes(methods: seq<Byte>): seq<Byte>
    requires |methods| < 256
  {
    [VERSION, |methods| as Byte] + methods
  }

  lemma GreetingIsRead(h: Hs, methods: seq<Byte>, rest: seq<Byte>)
    requires h.phase == Greeting && |methods| < 256 && h.clientIn == GreetingBytes(methods) + rest
    ensures GreetingStep(h) == if NO_AUTH in methods
      then h.(clientIn := rest, replies := h.replies + GREETING_OK, phase := Request)
      else h.(clientIn := rest, replies := h.replies + GREETING_REFUSED, closing := true, phase := Closing)
  {
  }

  /** Where a SOCKS5 client stands whose greeting was accepted. */
  const GREETED: Hs := INITIAL.(protocol := Socks5, phase := Request, replies := GREETING_OK)

  lemma RequestLeaves(env: Env, h: Hs)
    requires h.phase == Request && !ParseTarget(env, h.clientIn).Incomplete?
    ensures RequestStep(env, h).phase == Connecting || RequestStep(env, h).phase == Closing
  {
    hide ParseTarget, EncodeReply;
  }

  /** A complete request behind an accepted greeting decides the plan. */
  lemma SocksRuns(env: Env, methods: seq<Byte>, request: seq<Byte>)
    requires |methods| < 256 && NO_AUTH in methods && !ParseTarget(env, request).Incomplete?
    ensures Plan(env, GreetingBytes(methods) + request) == RequestStep(env, GREETED.(clientIn := request))
  {
    hide ParseHttp, ParseTarget, RequestStep;
    var h0 := More(INITIAL, GreetingBytes(methods) + request);
    assert h0.clientIn == GreetingBytes(methods) + request;
    var h1 := h0.(protocol := Socks5, phase := Greeting);
    assert Step(env, h0) == h1;
    GreetingIsRead(h1, methods, request);
    var h2 := GREETED.(clientIn := request);
    assert [] + GREETING_OK == GREETING_OK;
    assert Step(env, h1) == h2;
    RequestLeaves(env, h2);
    var h3 := RequestStep(env, h2);
    assert Step(env, h2) == h3 && Step(env, h3) == h3;
    assert Run(env, h2) == h3;
    assert Run(env, h1) == h3;
  }

  /** A SOCKS5 client that offers no-authentication and asks for an address gets the greeting reply;
      everything after its request goes upstream; a dial that fails at once adds a refusal and closes. */
  lemma SocksConnect(env: Env, methods: seq<Byte>, a: SockAddr, rest: seq<Byte>)
    requires |methods| < 256 && NO_AUTH in methods
    ensures var h := Plan(env, GreetingBytes(methods) + (EncodeReply(CMD_CONNECT, a) + rest));
            && h.protocol == Socks5 && h.target == Some(a) && h.display == Some(env.show(a))
            && h.clientIn == rest && h.upstream == [] && !h.doomed
            && (env.connect(a) ==> h.phase == Connecting && h.replies == [5, 0])
            && (!env.connect(a) ==>
                 h.phase == Closing && h.replies == [5, 0] + EncodeReply(5, UNSPECIFIED))
  {
    hide ParseTarget, EncodeReply, Plan, GreetingBytes;
    var m := EncodeReply(CMD_CONNECT, a);
    ParseEncoded(env, a, rest);
    assert (m + rest)[|m|..] == rest;
    SocksRuns(env, methods, m + rest);
  }

  /** One that asks for a name is connected to what the name resolves to, in the same way; and a name
      that does not resolve is refused as a general failure, without a connection. */
  lemma SocksConnectByName(env: Env, methods: seq<Byte>, name: seq<Byte>, port: Port, rest: seq<Byte>)
    requires |methods| < 256 && NO_AUTH in methods && |name| < 256
    ensures var m := [VERSION, CMD_CONNECT, 0x00, ATYP_DOMAIN, |name| as Byte] + name + PortBytes(port);
            var h := Plan(env, GreetingBytes(methods) + (m + rest));
            match env.resolve(env.lossy(name), port)
            case Some(a) =>
              && h.protocol == Socks5 && h.target == Some(a) && h.clientIn == rest && h.upstream == [] && !h.doomed
              && (env.connect(a) ==> h.phase == Connecting && h.replies == [5, 0])
              && (!env.connect(a) ==>
                   h.phase == Closing && h.replies == [5, 0] + EncodeReply(5, UNSPECIFIED))
            case None =>
              && h.phase == Closing && h.closing && !h.dialled && h.target == None && h.upstream == []
              && h.replies == [5, 0] + EncodeReply(1, UNSPECIFIED)
  {
    hide ParseTarget, EncodeReply, Plan, GreetingBytes;
    var m := [VERSION, CMD_CONNECT, 0x00, ATYP_DOMAIN, |name| as Byte] + name + PortBytes(port);
    ParseDomain(env, name, port, rest);
    assert (m + rest)[|m|..] == rest;
    SocksRuns(env, methods, m + rest);
  }

  /** A request that is not a CONNECT to a known kind of address is refused and closed, without a
      connection: 07 for another command, 08 for another kind of address, 01 for a malformed head. */
  lemma SocksRefused(env: Env, methods: seq<Byte>, head: seq<Byte>, rest: seq<Byte>)
    requires |methods| < 256 && NO_AUTH in methods && |head| == 4
    ensures var h := Plan(env, GreetingBytes(methods) + (head + rest));
            var framed := head[0] == 5 && head[2] == 0;
            var known := head[3] == 1 || head[3] == 3 || head[3] == 4;
            !(framed && head[1] == 1 && known) ==>
              && h.phase == Closing && h.closing && !h.dialled && h.target == None && h.upstream == []
              && h.replies == [5, 0] + EncodeReply(
                   if !framed then 1 else if head[1] != 1 then 7 else 8,
                   UNSPECIFIED)
  {
    hide EncodeReply, Plan, GreetingBytes;
    assert (head + rest)[..4] == head;
    if !ParseTarget(env, head + rest).Incomplete? { SocksRuns(env, methods, head + rest); }
  }

  /** A SOCKS5 client that does not offer no-authentication is refused and closed. */
  lemma SocksNoMethod(env: Env, methods: seq<Byte>, rest: seq<Byte>)
    requires |methods| < 256 && NO_AUTH !in methods
    ensures var h := Plan(env, GreetingBytes(methods) + rest);
            h.phase == Closing && h.closing && h.replies == [5, 255] && !h.dialled && h.target == None
  {
    hide ParseHttp;
    var h0 := More(INITIAL, GreetingBytes(methods) + rest);
    assert h0.clientIn == GreetingBytes(methods) + rest;
    var h1 := h0.(protocol := Socks5, phase := Greeting);
    assert Step(env, h0) == h1;
    GreetingIsRead(h1, methods, rest);
    assert Run(env, h1) == GreetingStep(h1);
  }

  lemma HttpRuns(env: Env, buf: seq<Byte>)
    requires buf != [] && buf[0] != VERSION && ParseHttp(env, buf).Done?
    ensures Plan(env, buf) == HttpStep(env, INITIAL.(clientIn := buf), ParseHttp(env, buf))
  {
    hide ParseHttp, HttpStep;
    var h0 := More(INITIAL, buf);
    assert h0.clientIn == buf;
    var h1 := HttpStep(env, h0, ParseHttp(env, buf));
    HttpStepLeaves(env, h0, ParseHttp(env, buf));
    assert Step(env, h0) == h1 && Step(env, h1) == h1;
    assert Run(env, h1) == h1;
  }

  lemma HttpStepLeaves(env: Env, h: Hs, parse: Parse<HttpRequest>)
    requires parse.Done?
    ensures HttpStep(env, h, parse).phase == Connecting || HttpStep(env, h, parse).phase == Closing
  {
  }

  /** An HTTP client is served by its request head alone: a forwarded request sends the rewritten
      message, a tunnel everything after the head, and neither is answered before the connection. */
  /** Bytes that begin neither a greeting nor, as far as they go, a request that can be answered are
      refused without a reply; while they may still begin one, they are kept, and nothing else happens. */
  lemma HttpRefused(env: Env, buf: seq<Byte>)
    requires buf != [] && buf[0] != 5
    ensures var h := Plan(env, buf);
            && (h.doomed <==> ParseHttp(env, buf).Malformed?)
            && (!ParseHttp(env, buf).Done? ==>
                 h == INITIAL.(clientIn := buf, doomed := ParseHttp(env, buf).Malformed?))
  {
    hide ParseHttp;
    var h0 := More(INITIAL, buf);
    assert h0.clientIn == buf && Plan(env, buf) == Run(env, h0);
    assert Step(env, h0) == HttpStep(env, h0, ParseHttp(env, buf));
    if ParseHttp(env, buf).Done? { HttpRuns(env, buf); }
  }

  lemma HttpConnect(env: Env, buf: seq<Byte>)
    requires buf != [] && buf[0] != VERSION && ParseHttp(env, buf).Done?
    ensures var r := ParseHttp(env, buf).value;
            var h := Plan(env, buf);
            && h.protocol == r.protocol && h.target == Some(r.target) && r.consumed <= |buf|
            && Content(h) == (if r.protocol == HttpForward then r.upstream else r.upstream + buf[r.consumed..])
            && (env.connect(r.target) ==> h.phase == Connecting && h.replies == [])
            && (!env.connect(r.target) ==> h.phase == Closing && h.replies == BAD_GATEWAY)
  {
    hide ParseHttp, Plan;
    ParseOnMore(env, buf, []);
    HttpRuns(env, buf);
    hide Grown, WithMoreBody;
    assert [] + BAD_GATEWAY == BAD_GATEWAY;
  }
}
