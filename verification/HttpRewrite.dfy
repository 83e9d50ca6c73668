/** The HTTP side of the proxy: finding the end of a request head, reading the target, and
    rewriting an absolute-form request for the origin server. */
module HttpRewrite {
  import opened Bytes
  import opened Oracles
  import opened HostPort

  const CR: Byte := 13
  const LF: Byte := 10
  const SPACE: Byte := 32
  const SLASH: Byte := 47
  const CRLF: seq<Byte> := [CR, LF]
  const BLANK: seq<Byte> := [CR, LF, CR, LF]

  function Ascii(s: string): (r: seq<Byte>)
    requires forall i :: 0 <= i < |s| ==> s[i] < 128 as char
    ensures |r| == |s| && forall i :: 0 <= i < |s| ==> r[i] as int == s[i] as int
  {
    seq(|s|, i requires 0 <= i < |s| => s[i] as int as Byte)
  }

  const CONNECTION_CLOSE: seq<Byte> := Ascii("Connection: close")

  function Lower(b: Byte): Byte { if 65 <= b <= 90 then b + 32 else b }

  function LowerAll(s: seq<Byte>): seq<Byte> { seq(|s|, i requires 0 <= i < |s| => Lower(s[i])) }

  predicate StartsNoCase(s: seq<Byte>, prefix: seq<Byte>) {
    |s| >= |prefix| && LowerAll(s[..|prefix|]) == prefix
  }

  predicate IsSpace(b: Byte) { 9 <= b <= 13 || b == SPACE }

  // ---------------------------------------------------------------- end of the head

  ghost predicate BlankAt(buf: seq<Byte>, i: nat) { i + 4 <= |buf| && buf[i..i + 4] == BLANK }

  /** One past the first blank line at or after i. */
  function HeaderEndFrom(buf: seq<Byte>, i: nat): (r: Option<nat>)
    requires i <= |buf|
    ensures r.Some? ==> i + 4 <= r.value <= |buf| && BlankAt(buf, r.value - 4)
    ensures r.Some? ==> forall k: nat :: i <= k < r.value - 4 ==> !BlankAt(buf, k)
    ensures r.None? ==> forall k: nat :: i <= k ==> !BlankAt(buf, k)
    decreases |buf| - i
  {
    if i + 4 > |buf| then None
    else if buf[i..i + 4] == BLANK then Some(i + 4)
    else HeaderEndFrom(buf, i + 1)
  }

  function HeaderEnd(buf: seq<Byte>): (r: Option<nat>)
    ensures r.Some? ==> 4 <= r.value <= |buf|
  {
    HeaderEndFrom(buf, 0)
  }

  lemma HeaderEndIs(buf: seq<Byte>, e: nat)
    requires 4 <= e && BlankAt(buf, e - 4) && forall k: nat :: k < e - 4 ==> !BlankAt(buf, k)
    ensures HeaderEnd(buf) == Some(e)
  {
  }

  method FindHeaderEnd(buf: seq<Byte>) returns (r: Option<nat>)
    ensures r == HeaderEnd(buf)
  {
    if |buf| < 4 { return None; }
    for i := 0 to |buf| - 3
      invariant HeaderEndFrom(buf, i) == HeaderEnd(buf)
    {
      if buf[i..i + 4] == BLANK { return Some(i + 4); }
    }
    return None;
  }

  // ---------------------------------------------------------------- lines and words

  ghost predicate CrlfHere(s: seq<Byte>, k: nat) { k + 1 < |s| && s[k] == CR && s[k + 1] == LF }

  ghost predicate CrlfFree(s: seq<Byte>) { forall k: nat :: !CrlfHere(s, k) }

  /** The least index of a CRLF, or |s|. */
  function CrlfAt(s: seq<Byte>): (i: nat)
    ensures i == |s| || CrlfHere(s, i)
    ensures i <= |s| && forall k: nat :: k < i ==> !CrlfHere(s, k)
  {
    if s == [] then 0
    else if |s| > 1 && s[0] == CR && s[1] == LF then 0
    else
      var i := 1 + CrlfAt(s[1..]);
      assert forall k: nat :: 0 < k < i ==> CrlfHere(s, k) == CrlfHere(s[1..], k - 1);
      i
  }

  function SplitLines(s: seq<Byte>): (lines: seq<seq<Byte>>)
    ensures lines != []
    ensures forall l :: l in lines ==> CrlfFree(l)
  {
    var i := CrlfAt(s);
    if i == |s| then [s] else
      assert forall k: nat :: k < i ==> CrlfHere(s[..i], k) ==> CrlfHere(s, k);
      [s[..i]] + SplitLines(s[i + 2..])
  }

  /** Every line followed by CRLF. */
  function Join(lines: seq<seq<Byte>>): seq<Byte> {
    if lines == [] then [] else lines[0] + CRLF + Join(lines[1..])
  }

  lemma {:induction false} JoinAppend(a: seq<seq<Byte>>, b: seq<seq<Byte>>)
    ensures Join(a + b) == Join(a) + Join(b)
  {
    if a == [] {
      assert a + b == b;
    } else {
      assert (a + b)[1..] == a[1..] + b;
      JoinAppend(a[1..], b);
    }
  }

  lemma FirstCrlf(l: seq<Byte>, tail: seq<Byte>)
    requires CrlfFree(l)
    ensures CrlfAt(l + CRLF + tail) == |l|
    ensures forall k: nat :: k != |l| && k < |l| + 2 ==> !CrlfHere(l + CRLF + tail, k)
  {
    var s := l + CRLF + tail;
    assert s[|l|] == CR && s[|l| + 1] == LF && CrlfHere(s, |l|);
    assert forall k: nat :: k < |l| ==> CrlfHere(s, k) ==> CrlfHere(l, k);
  }

  lemma SplitStep(l: seq<Byte>, tail: seq<Byte>)
    requires CrlfFree(l)
    ensures SplitLines(l + CRLF + tail) == [l] + SplitLines(tail)
  {
    var s := l + CRLF + tail;
    FirstCrlf(l, tail);
    assert s[..|l|] == l && s[|l| + 2..] == tail;
  }

  lemma CrlfSplits()
    ensures SplitLines(CRLF) == [[], []]
  {
    SplitStep([], []);
    assert [] + CRLF + [] == CRLF && SplitLines([]) == [[]];
  }

  lemma {:induction false} SplitJoin(lines: seq<seq<Byte>>, tail: seq<Byte>)
    requires forall l :: l in lines ==> CrlfFree(l)
    ensures SplitLines(Join(lines) + tail) == lines + SplitLines(tail)
  {
    hide SplitLines, CrlfFree;
    if lines == [] {
      assert Join(lines) + tail == tail;
    } else {
      var rest := Join(lines[1..]) + tail;
      assert Join(lines) + tail == lines[0] + CRLF + rest;
      SplitStep(lines[0], rest);
      assert forall l :: l in lines[1..] ==> l in lines;
      SplitJoin(lines[1..], tail);
      assert lines == [lines[0]] + lines[1..];
    }
  }

  lemma BlankIsTwoCrlf(s: seq<Byte>, k: nat)
    ensures BlankAt(s, k) <==> CrlfHere(s, k) && CrlfHere(s, k + 2)
  {
    if k + 4 <= |s| {
      assert s[k..k + 4] == [s[k], s[k + 1], s[k + 2], s[k + 3]];
      assert BLANK == [CRLF[0], CRLF[1], CRLF[0], CRLF[1]];
    }
  }

  lemma BlankShift(l: seq<Byte>, tail: seq<Byte>, k: nat)
    requires CrlfFree(l)
    ensures var s := l + CRLF + tail;
            BlankAt(s, k) == if k < |l| + 2 then k == |l| && CrlfHere(tail, 0) else BlankAt(tail, k - |l| - 2)
  {
    var s := l + CRLF + tail;
    FirstCrlf(l, tail);
    BlankIsTwoCrlf(s, k);
    assert s[|l| + 2..] == tail && CrlfHere(s, |l|);
    if k >= |l| + 2 {
      BlankIsTwoCrlf(tail, k - |l| - 2);
    }
  }

  /** A CRLF-free line ahead of a text only shifts its first blank line. */
  lemma LineShiftsBlank(l: seq<Byte>, tail: seq<Byte>)
    requires CrlfFree(l)
    requires CrlfHere(tail, 0) || HeaderEnd(tail).Some?
    ensures HeaderEnd(l + CRLF + tail) == Some(|l| + if CrlfHere(tail, 0) then 4 else 2 + HeaderEnd(tail).value)
  {
    hide CrlfFree, CrlfHere, BlankAt;
    var s := l + CRLF + tail;
    var e := if CrlfHere(tail, 0) then |l| + 4 else |l| + 2 + HeaderEnd(tail).value;
    forall k: nat
      ensures BlankAt(s, k) == if k < |l| + 2 then k == |l| && CrlfHere(tail, 0) else BlankAt(tail, k - |l| - 2)
    {
      BlankShift(l, tail, k);
    }
    HeaderEndIs(s, e);
  }

  lemma JoinHead(lines: seq<seq<Byte>>, x: seq<Byte>)
    requires lines != []
    ensures Join(lines) + x == lines[0] + CRLF + (Join(lines[1..]) + x)
  {
  }

  lemma NoCrlfFirst(lines: seq<seq<Byte>>, x: seq<Byte>)
    requires lines != [] && lines[0] != [] && CrlfFree(lines[0])
    ensures !CrlfHere(Join(lines) + x, 0)
  {
    JoinHead(lines, x);
    FirstCrlf(lines[0], Join(lines[1..]) + x);
  }

  /** Joining non-empty CRLF-free lines makes no blank line before the one that is added. */
  lemma {:induction false} FirstBlank(lines: seq<seq<Byte>>, body: seq<Byte>)
    requires lines != [] && forall l :: l in lines ==> l != [] && CrlfFree(l)
    ensures HeaderEnd(Join(lines) + (CRLF + body)) == Some(|Join(lines)| + 2)
  {
    hide HeaderEnd, CrlfFree;
    var end := CRLF + body;
    var rest := lines[1..];
    var tail := Join(rest) + end;
    assert Join(lines) + end == lines[0] + CRLF + tail by { JoinHead(lines, end); }
    assert |Join(lines)| == |lines[0]| + 2 + |Join(rest)|;
    if rest == [] {
      assert tail == end && CrlfHere(tail, 0);
      LineShiftsBlank(lines[0], tail);
    } else {
      assert HeaderEnd(tail) == Some(|Join(rest)| + 2) by {
        assert forall l :: l in rest ==> l in lines;
        FirstBlank(rest, body);
      }
      assert rest[0] == lines[1] && lines[1] in lines;
      assert !CrlfHere(tail, 0) by { NoCrlfFirst(rest, end); }
      LineShiftsBlank(lines[0], tail);
    }
  }

  function WordLen(s: seq<Byte>): (n: nat)
    ensures n <= |s| && (forall i :: 0 <= i < n ==> !IsSpace(s[i])) && (n < |s| ==> IsSpace(s[n]))
  {
    if s == [] || IsSpace(s[0]) then 0 else 1 + WordLen(s[1..])
  }

  ghost predicate IsWord(w: seq<Byte>) { w != [] && forall i :: 0 <= i < |w| ==> !IsSpace(w[i]) }

  /** The maximal runs of non-space octets. */
  function Words(s: seq<Byte>): (ws: seq<seq<Byte>>)
    ensures forall w :: w in ws ==> IsWord(w)
    decreases |s|
  {
    if s == [] then []
    else if IsSpace(s[0]) then Words(s[1..])
    else
      var n := WordLen(s);
      [s[..n]] + Words(s[n..])
  }

  lemma WordThenSpace(w: seq<Byte>, tail: seq<Byte>)
    requires IsWord(w)
    ensures Words(w + [SPACE] + tail) == [w] + Words(tail)
    ensures Words(w) == [w]
  {
    var s := w + [SPACE] + tail;
    assert s[0] == w[0] && s[|w|] == SPACE;
    assert forall i :: 0 <= i < |w| ==> s[i] == w[i];
    assert WordLen(s) == |w|;
    assert s[..|w|] == w && s[|w|..] == [SPACE] + tail;
    assert ([SPACE] + tail)[1..] == tail;
    assert WordLen(w) == |w| && w[..|w|] == w && w[|w|..] == [];
  }

  function TrimStart(s: seq<Byte>): seq<Byte> {
    if s != [] && IsSpace(s[0]) then TrimStart(s[1..]) else s
  }

  function TrimEnd(s: seq<Byte>): seq<Byte> {
    if s != [] && IsSpace(s[|s| - 1]) then TrimEnd(s[..|s| - 1]) else s
  }

  function Trim(s: seq<Byte>): seq<Byte> { TrimEnd(TrimStart(s)) }

  // ---------------------------------------------------------------- headers

  const HOST: seq<Byte> := Ascii("host:")
  const CONNECTION: seq<Byte> := Ascii("connection:")
  const PROXY_CONNECTION: seq<Byte> := Ascii("proxy-connection:")

  predicate Survives(line: seq<Byte>) {
    line != [] && !StartsNoCase(line, PROXY_CONNECTION) && !StartsNoCase(line, CONNECTION)
  }

  /** The header lines passed on, in order. */
  function Kept(lines: seq<seq<Byte>>): (kept: seq<seq<Byte>>)
    ensures forall l :: l in kept ==> l in lines && Survives(l)
  {
    if lines == [] then [] else
      var n := |lines| - 1;
      Kept(lines[..n]) + if Survives(lines[n]) then [lines[n]] else []
  }

  /** The value of the last Host line. */
  function HostOf(lines: seq<seq<Byte>>): Option<seq<Byte>> {
    if lines == [] then None else
      var n := |lines| - 1;
      if StartsNoCase(lines[n], HOST) then Some(Trim(lines[n][5..])) else HostOf(lines[..n])
  }

  lemma {:induction false} KeptAppend(a: seq<seq<Byte>>, b: seq<seq<Byte>>)
    ensures Kept(a + b) == Kept(a) + Kept(b)
    ensures HostOf(a + b) == if HostOf(b).Some? then HostOf(b) else HostOf(a)
  {
    if b == [] {
      assert a + b == a;
    } else {
      assert (a + b)[..|a + b| - 1] == a + b[..|b| - 1];
      KeptAppend(a, b[..|b| - 1]);
    }
  }

  /** The line begins with the given text, in any case of its letters. */
  predicate Begins(line: seq<Byte>, text: string)
    requires forall i :: 0 <= i < |text| ==> text[i] < 128 as char
  {
    Ascii(text) <= LowerAll(line)
  }

  lemma BeginsIs(line: seq<Byte>, prefix: seq<Byte>)
    ensures StartsNoCase(line, prefix) <==> prefix <= LowerAll(line)
  {
    if |line| >= |prefix| { assert LowerAll(line)[..|prefix|] == LowerAll(line[..|prefix|]); }
  }

  /** The lines that are for the proxy alone. */
  predicate HopByHop(line: seq<Byte>) { Begins(line, "connection:") || Begins(line, "proxy-connection:") }

  lemma SurvivesUnlessHop(line: seq<Byte>)
    ensures Survives(line) <==> line != [] && !HopByHop(line)
  {
    BeginsIs(line, CONNECTION);
    BeginsIs(line, PROXY_CONNECTION);
    hide StartsNoCase, LowerAll;
  }

  /** Every header line is passed on as often as it is there, but for empty lines and those for the proxy
      alone, which are not passed on at all. */
  lemma {:induction false} KeptExactly(lines: seq<seq<Byte>>, line: seq<Byte>)
    ensures multiset(Kept(lines))[line] == if line == [] || HopByHop(line) then 0 else multiset(lines)[line]
  {
    hide HopByHop;
    if lines != [] {
      var n := |lines| - 1;
      KeptExactly(lines[..n], line);
      SurvivesUnlessHop(lines[n]);
      hide Survives;
      assert lines == lines[..n] + [lines[n]];
    }
  }

  /** The Host of one more line: its value without the space around it, if it is a Host line. */
  lemma HostOfMore(lines: seq<seq<Byte>>, line: seq<Byte>)
    ensures HostOf(lines + [line]) == if Begins(line, "host:") then Some(Trim(line[5..])) else HostOf(lines)
    ensures HostOf([]) == None
  {
    BeginsIs(line, HOST);
    assert (lines + [line])[..|lines|] == lines;
  }

  /** Trimming cuts off space on both sides, and all of it. */
  lemma TrimMeans(s: seq<Byte>)
    ensures var t := Trim(s);
            && (exists a, b :: s == a + t + b && forall c :: c in a || c in b ==> IsSpace(c))
            && (t != [] ==> !IsSpace(t[0]) && !IsSpace(t[|t| - 1]))
  {
    var m := TrimStart(s);
    var a := TrimStartCuts(s);
    var b := TrimEndCuts(m);
    assert s == a + Trim(s) + b;
    if Trim(s) != [] { assert m[0] == Trim(s)[0]; }
  }

  lemma {:induction false} TrimStartCuts(s: seq<Byte>) returns (a: seq<Byte>)
    ensures s == a + TrimStart(s) && forall c :: c in a ==> IsSpace(c)
    ensures TrimStart(s) != [] ==> !IsSpace(TrimStart(s)[0])
  {
    a := [];
    if s != [] && IsSpace(s[0]) {
      var rest := TrimStartCuts(s[1..]);
      a := [s[0]] + rest;
    }
  }

  lemma {:induction false} TrimEndCuts(s: seq<Byte>) returns (b: seq<Byte>)
    ensures s == TrimEnd(s) + b && forall c :: c in b ==> IsSpace(c)
    ensures TrimEnd(s) != [] ==> !IsSpace(TrimEnd(s)[|TrimEnd(s)| - 1])
  {
    b := [];
    if s != [] && IsSpace(s[|s| - 1]) {
      var rest := TrimEndCuts(s[..|s| - 1]);
      b := rest + [s[|s| - 1]];
    }
  }

  lemma LiteralHeaders()
    ensures StartsNoCase(CONNECTION_CLOSE, CONNECTION) && !StartsNoCase(CONNECTION_CLOSE, HOST)
    ensures CrlfFree(CONNECTION_CLOSE) && CONNECTION_CLOSE != []
  {
    assert LowerAll(CONNECTION_CLOSE[..5])[0] == 99;
    assert HOST[0] == 104;
    assert forall i :: 0 <= i < |CONNECTION_CLOSE| ==> CONNECTION_CLOSE[i] >= 32;
  }

  /** A Host line is neither a connection line nor empty, so it is passed on. */
  lemma HostSurvives(line: seq<Byte>)
    requires StartsNoCase(line, HOST)
    ensures Survives(line)
  {
    assert LowerAll(line[..5])[0] == HOST[0] == 104;
    if |line| >= 11 { assert LowerAll(line[..11])[0] == 104 && CONNECTION[0] == 99; }
    if |line| >= 17 { assert LowerAll(line[..17])[0] == 104 && PROXY_CONNECTION[0] == 112; }
  }

  /** Filtering again keeps everything and finds the same Host. */
  lemma {:induction false} KeptTwice(lines: seq<seq<Byte>>)
    ensures Kept(Kept(lines)) == Kept(lines) && HostOf(Kept(lines)) == HostOf(lines)
  {
    if lines != [] {
      var n := |lines| - 1;
      KeptTwice(lines[..n]);
      var last := if Survives(lines[n]) then [lines[n]] else [];
      KeptAppend(Kept(lines[..n]), last);
      if StartsNoCase(lines[n], HOST) { HostSurvives(lines[n]); }
    }
  }

  // ---------------------------------------------------------------- the request

  datatype Protocol = Unknown | Socks5 | HttpTunnel | HttpForward

  datatype Reason =
    | BadVersion | BadReserved | BadCommand | BadAddressType | ResolveFailed
    | BadText | BadRequestLine | MissingHost

  /** A parse of an accumulating buffer: wait for more, a value, or a refusal. */
  datatype Parse<+T> = Incomplete | Done(value: T) | Malformed(reason: Reason)

  datatype HttpRequest = HttpRequest(
    consumed: nat, target: SockAddr, display: seq<Byte>, protocol: Protocol, upstream: seq<Byte>)

  const CONNECT: seq<Byte> := Ascii("connect")
  const HTTP_SCHEME: seq<Byte> := Ascii("http://")
  const HTTP_PORT: Port := 80
  const TLS_PORT: Port := 443

  predicate IsAbsolute(target: seq<Byte>) { StartsNoCase(target, HTTP_SCHEME) }

  predicate EndsAuthority(b: Byte) { b == SLASH || b == 63 || b == 35 }

  /** The length of the authority at the front of what follows the scheme. */
  function AuthorityLen(rest: seq<Byte>): (n: nat)
    ensures n <= |rest| && (n < |rest| ==> EndsAuthority(rest[n]))
    ensures forall k :: 0 <= k < n ==> !EndsAuthority(rest[k])
  {
    if rest == [] || EndsAuthority(rest[0]) then 0 else 1 + AuthorityLen(rest[1..])
  }

  /** The origin-form of a request target. */
  function OriginForm(target: seq<Byte>): seq<Byte> {
    if !IsAbsolute(target) then target else
      var rest := target[7..];
      var path := rest[AuthorityLen(rest)..];
      if path == [] then [SLASH]
      else if path[0] == SLASH then path
      else if path[0] == 63 then [SLASH] + path
      else [SLASH]
  }

  function Resolve(env: Env, a: Authority): Parse<Authority> {
    if env.resolve(a.host, a.port).Some? then Done(a) else Malformed(ResolveFailed)
  }

  /** Where a forwarded request goes: the authority of an absolute-form target, else the Host. */
  function ForwardAuthority(env: Env, target: seq<Byte>, host: Option<seq<Byte>>): Parse<Authority> {
    if IsAbsolute(target) then
      var rest := target[7..];
      Resolve(env, SplitHostPort(rest[..AuthorityLen(rest)], HTTP_PORT))
    else
      match host
      case None => Malformed(MissingHost)
      case Some(h) => Resolve(env, SplitHostPort(Trim(h), HTTP_PORT))
  }

  function RequestLine(method_: seq<Byte>, uri: seq<Byte>, version: seq<Byte>): seq<Byte> {
    method_ + [SPACE] + (uri + [SPACE] + version)
  }

  /** The lines of the rewritten head. */
  function RewrittenLines(parts: seq<seq<Byte>>, headers: seq<seq<Byte>>): seq<seq<Byte>>
    requires |parts| >= 3
  {
    [RequestLine(parts[0], OriginForm(parts[1]), parts[2])] + (Kept(headers) + [CONNECTION_CLOSE])
  }

  function ParseHead(env: Env, lines: seq<seq<Byte>>, e: nat, body: seq<Byte>): Parse<HttpRequest>
    requires lines != []
  {
    var parts := Words(lines[0]);
    if |parts| < 3 then Malformed(BadRequestLine)
    else if LowerAll(parts[0]) == CONNECT then
      match Resolve(env, SplitHostPort(parts[1], TLS_PORT))
      case Done(a) => Done(HttpRequest(e, env.resolve(a.host, a.port).value, a.display, HttpTunnel, []))
      case Malformed(r) => Malformed(r)
    else
      match ForwardAuthority(env, parts[1], HostOf(lines[1..]))
      case Done(a) =>
        Done(HttpRequest(e, env.resolve(a.host, a.port).value, a.display, HttpForward,
                         Join(RewrittenLines(parts, lines[1..])) + (CRLF + body)))
      case Malformed(r) => Malformed(r)
  }

  function ParseHttp(env: Env, buf: seq<Byte>): Parse<HttpRequest> {
    match HeaderEnd(buf)
    case None => Incomplete
    case Some(e) =>
      if !env.utf8(buf[..e]) then Malformed(BadText)
      else ParseHead(env, SplitLines(buf[..e]), e, buf[e..])
  }

  /** The header loop: what is passed on, followed by the one Connection header, and the Host. */
  method CollectHeaders(headers: seq<seq<Byte>>) returns (raw: seq<Byte>, host: Option<seq<Byte>>)
    ensures raw == Join(Kept(headers) + [CONNECTION_CLOSE])
    ensures host == HostOf(headers)
  {
    host, raw := None, [];
    for i := 0 to |headers|
      invariant raw == Join(Kept(headers[..i]))
      invariant host == HostOf(headers[..i])
    {
      var line := headers[i];
      assert headers[..i + 1][..i] == headers[..i];
      JoinPush(Kept(headers[..i]), line);
      assert Kept(headers[..i]) + [] == Kept(headers[..i]);
      if line == [] {
        EmptyLineIsNoHost();
        continue;
      }
      if StartsNoCase(line, HOST) { host := Some(Trim(line[5..])); }
      if StartsNoCase(line, PROXY_CONNECTION) { continue; }
      if StartsNoCase(line, CONNECTION) { continue; }
      raw := raw + line + CRLF;
    }
    assert headers[..|headers|] == headers;
    JoinPush(Kept(headers), CONNECTION_CLOSE);
    raw := raw + CONNECTION_CLOSE + CRLF;
  }

  /** The proxy's own parser of an accumulating buffer. */
  method ParseHttpProxyRequest(env: Env, buf: seq<Byte>) returns (r: Parse<HttpRequest>)
    ensures r == ParseHttp(env, buf)
  {
    hide Words, SplitLines, SplitHostPort, HeaderEnd, Join, OriginForm, AuthorityLen, HostOf, LowerAll;
    var end := FindHeaderEnd(buf);
    if end.None? { return Incomplete; }
    var headerEnd := end.value;
    if !env.utf8(buf[..headerEnd]) { return Malformed(BadText); }
    var lines := SplitLines(buf[..headerEnd]);
    var parts := Words(lines[0]);
    if |parts| < 3 { return Malformed(BadRequestLine); }
    var verb, target, version := parts[0], parts[1], parts[2];
    if LowerAll(verb) == CONNECT {
      var a := SplitHostPort(target, TLS_PORT);
      var addr := env.resolve(a.host, a.port);
      if addr.None? { return Malformed(ResolveFailed); }
      return Done(HttpRequest(headerEnd, addr.value, a.display, HttpTunnel, []));
    }
    var headersRaw, hostHeader := CollectHeaders(lines[1..]);
    var a: Authority;
    if IsAbsolute(target) {
      var rest := target[7..];
      a := SplitHostPort(rest[..AuthorityLen(rest)], HTTP_PORT);
    } else {
      if hostHeader.None? { return Malformed(MissingHost); }
      a := SplitHostPort(Trim(hostHeader.value), HTTP_PORT);
    }
    var addr := env.resolve(a.host, a.port);
    if addr.None? { return Malformed(ResolveFailed); }
    var rewritten := RequestLine(verb, OriginForm(target), version) + CRLF + headersRaw + CRLF;
    rewritten := rewritten + buf[headerEnd..];
    RewrittenBytes(parts, lines[1..], headersRaw, buf[headerEnd..]);
    r := Done(HttpRequest(headerEnd, addr.value, a.display, HttpForward, rewritten));
  }

  lemma RewrittenBytes(parts: seq<seq<Byte>>, headers: seq<seq<Byte>>, raw: seq<Byte>, body: seq<Byte>)
    requires |parts| >= 3 && raw == Join(Kept(headers) + [CONNECTION_CLOSE])
    ensures RequestLine(parts[0], OriginForm(parts[1]), parts[2]) + CRLF + raw + CRLF + body
         == Join(RewrittenLines(parts, headers)) + (CRLF + body)
  {
  }

  lemma JoinPush(lines: seq<seq<Byte>>, line: seq<Byte>)
    ensures Join(lines + [line]) == Join(lines) + line + CRLF
  {
    JoinAppend(lines, [line]);
    assert Join([line]) == line + CRLF;
  }

  lemma EmptyLineIsNoHost()
    ensures !StartsNoCase([], HOST)
  {
  }
}
