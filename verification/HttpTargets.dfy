/** Where an HTTP request goes and what is sent there, for whole messages. */
module HttpTargets {
  import opened Bytes
  import opened Oracles
  import opened HostPort
  import opened HttpRewrite
  import opened HttpFraming

  /** The head of a message: its lines, and a blank one. */
  function Message(verb: seq<Byte>, uri: seq<Byte>, version: seq<Byte>,
                   headers: seq<seq<Byte>>, body: seq<Byte>): seq<Byte> {
    Head(verb, uri, version, headers) + body
  }

  function Head(verb: seq<Byte>, uri: seq<Byte>, version: seq<Byte>, headers: seq<seq<Byte>>): seq<Byte> {
    Join([verb + [SPACE] + uri + [SPACE] + version] + headers) + CRLF
  }

  ghost predicate WellFormed(env: Env, verb: seq<Byte>, uri: seq<Byte>, version: seq<Byte>, headers: seq<seq<Byte>>) {
    && IsWord(verb) && IsWord(uri) && IsWord(version) && env.utf8(Head(verb, uri, version, headers))
    && forall l :: l in headers ==> l != [] && CrlfFree(l)
  }

  lemma LinesOf(verb: seq<Byte>, uri: seq<Byte>, version: seq<Byte>, headers: seq<seq<Byte>>, body: seq<Byte>)
    requires IsWord(verb) && IsWord(uri) && IsWord(version)
    requires forall l :: l in headers ==> l != [] && CrlfFree(l)
    ensures var m, head := Message(verb, uri, version, headers, body), Head(verb, uri, version, headers);
            && HeaderEnd(m) == Some(|head|) && m[..|head|] == head && m[|head|..] == body
            && SplitLines(head) == [verb + [SPACE] + uri + [SPACE] + version] + (headers + [[], []])
            && Words(verb + [SPACE] + uri + [SPACE] + version) == [verb, uri, version]
  {
    var line := verb + [SPACE] + uri + [SPACE] + version;
    assert line == RequestLine(verb, uri, version);
    RequestLineWords(verb, uri, version);
    hide Words, SplitLines, HeaderEnd, CrlfFree;
    var ls := [line] + headers;
    FirstBlank(ls, body);
    assert Message(verb, uri, version, headers, body) == Join(ls) + (CRLF + body);
    SplitJoin(ls, CRLF);
    CrlfSplits();
    assert ls + [[], []] == [line] + (headers + [[], []]);
  }

  lemma BlanksAreNoHeaders(headers: seq<seq<Byte>>)
    ensures Kept(headers + [[], []]) == Kept(headers) && HostOf(headers + [[], []]) == HostOf(headers)
  {
    EmptyLineIsNoHost();
    var two: seq<seq<Byte>> := [[], []];
    assert two[..1] == [[]] && two[..1][..0] == [];
    assert Kept(two[..1]) == [] && HostOf(two[..1]) == None;
    assert Kept(two) == [] && HostOf(two) == None;
    KeptAppend(headers, two);
  }

  /** A message is parsed by its lines. */
  lemma ParsedByLines(env: Env, verb: seq<Byte>, uri: seq<Byte>, version: seq<Byte>,
                      headers: seq<seq<Byte>>, body: seq<Byte>)
    requires WellFormed(env, verb, uri, version, headers)
    ensures var line := verb + [SPACE] + uri + [SPACE] + version;
            ParseHttp(env, Message(verb, uri, version, headers, body)) ==
            ParseHead(env, [line] + (headers + [[], []]), |Head(verb, uri, version, headers)|, body)
  {
    hide ParseHead, Message, Head, Words, SplitLines, HeaderEnd, CrlfFree, IsWord;
    LinesOf(verb, uri, version, headers, body);
  }

  /** What a request asks for: a tunnel, or its message sent on. */
  function Answer(env: Env, a: Authority, consumed: nat, protocol: Protocol, upstream: seq<Byte>): Parse<HttpRequest> {
    match env.resolve(a.host, a.port)
    case Some(t) => Done(HttpRequest(consumed, t, a.display, protocol, upstream))
    case None => Malformed(ResolveFailed)
  }

  /** CONNECT, in any case, asks for a tunnel to its authority, at port 443 unless it has one; what
      follows the head is left in the buffer. */
  lemma TunnelTarget(env: Env, verb: seq<Byte>, uri: seq<Byte>, version: seq<Byte>,
                     headers: seq<seq<Byte>>, body: seq<Byte>)
    requires WellFormed(env, verb, uri, version, headers) && LowerAll(verb) == Ascii("connect")
    ensures ParseHttp(env, Message(verb, uri, version, headers, body)) ==
            Answer(env, SplitHostPort(uri, 443), |Head(verb, uri, version, headers)|, HttpTunnel, [])
  {
    hide Words, SplitLines, HeaderEnd, ParseHttp, SplitHostPort, CrlfFree, IsWord, LowerAll, Message, Head;
    LinesOf(verb, uri, version, headers, body);
    ParsedByLines(env, verb, uri, version, headers, body);
  }

  /** The message that is sent on: the request line with the given target, the surviving headers, and
      Connection: close. */
  function SentOn(verb: seq<Byte>, uri: seq<Byte>, version: seq<Byte>,
                  headers: seq<seq<Byte>>, body: seq<Byte>): seq<Byte> {
    Message(verb, uri, version, Kept(headers) + [CONNECTION_CLOSE], body)
  }

  lemma ForwardParse(env: Env, verb: seq<Byte>, uri: seq<Byte>, version: seq<Byte>,
                     headers: seq<seq<Byte>>, body: seq<Byte>)
    requires WellFormed(env, verb, uri, version, headers) && LowerAll(verb) != Ascii("connect")
    ensures ParseHttp(env, Message(verb, uri, version, headers, body)) ==
            match ForwardAuthority(env, uri, HostOf(headers))
            case Done(a) => Answer(env, a, |Head(verb, uri, version, headers)|, HttpForward,
                                   SentOn(verb, OriginForm(uri), version, headers, body))
            case Malformed(r) => Malformed(r)
            case Incomplete => Incomplete
  {
    hide Words, SplitLines, HeaderEnd, ParseHttp, SplitHostPort, CrlfFree, IsWord, LowerAll, Kept, HostOf,
         OriginForm, Join;
    LinesOf(verb, uri, version, headers, body);
    ParsedByLines(env, verb, uri, version, headers, body);
    BlanksAreNoHeaders(headers);
    var o := OriginForm(uri);
    assert RequestLine(verb, o, version) == verb + [SPACE] + o + [SPACE] + version;
    var ls := [RequestLine(verb, o, version)] + (Kept(headers) + [CONNECTION_CLOSE]);
    assert Join(ls) + (CRLF + body) == Join(ls) + CRLF + body;
  }

  /** A request in absolute form goes to the authority of its target, at port 80 unless it has one, with
      the rest of the target as origin form. */
  lemma AbsoluteRequest(env: Env, verb: seq<Byte>, scheme: seq<Byte>, authority: seq<Byte>, path: seq<Byte>,
                        version: seq<Byte>, headers: seq<seq<Byte>>, body: seq<Byte>)
    requires WellFormed(env, verb, scheme + (authority + path), version, headers) && LowerAll(verb) != Ascii("connect")
    requires |scheme| == 7 && LowerAll(scheme) == Ascii("http://")
    requires forall k :: 0 <= k < |authority| ==> !EndsAuthority(authority[k])
    requires path != [] ==> EndsAuthority(path[0])
    ensures var uri := scheme + (authority + path);
            var origin := if path == [] || path[0] == 35 then [47] else if path[0] == 63 then [47] + path else path;
            ParseHttp(env, Message(verb, uri, version, headers, body)) ==
            Answer(env, SplitHostPort(authority, 80), |Head(verb, uri, version, headers)|, HttpForward,
                   SentOn(verb, origin, version, headers, body))
  {
    hide ParseHttp, SplitHostPort, WellFormed, LowerAll, HostOf, OriginForm, SentOn, Message, Head;
    var uri := scheme + (authority + path);
    ForwardParse(env, verb, uri, version, headers, body);
    AbsoluteTarget(scheme, authority, path);
  }

  /** Any other request goes to its last Host, at port 80 unless it has one, with its target as it is. */
  lemma OriginRequest(env: Env, verb: seq<Byte>, uri: seq<Byte>, version: seq<Byte>,
                      headers: seq<seq<Byte>>, body: seq<Byte>)
    requires WellFormed(env, verb, uri, version, headers) && LowerAll(verb) != Ascii("connect")
    requires !Begins(uri, "http://")
    ensures ParseHttp(env, Message(verb, uri, version, headers, body)) ==
            match HostOf(headers)
            case None => Malformed(MissingHost)
            case Some(h) => Answer(env, SplitHostPort(Trim(h), 80), |Head(verb, uri, version, headers)|, HttpForward,
                                   SentOn(verb, uri, version, headers, body))
  {
    BeginsIs(uri, HTTP_SCHEME);
    hide ParseHttp, SplitHostPort, WellFormed, LowerAll, HostOf, SentOn, Message, Head, Trim;
    ForwardParse(env, verb, uri, version, headers, body);
    assert OriginForm(uri) == uri;
  }

  /** A head is waited for exactly while there is no blank line. */
  lemma WaitsForHead(env: Env, buf: seq<Byte>)
    ensures ParseHttp(env, buf).Incomplete? <==> forall k: nat :: !BlankAt(buf, k)
  {
    hide ParseHead, BlankAt;
    if HeaderEnd(buf).Some? {
      assert BlankAt(buf, HeaderEnd(buf).value - 4);
      NeverWaits(env, SplitLines(buf[..HeaderEnd(buf).value]), HeaderEnd(buf).value, buf[HeaderEnd(buf).value..]);
    }
  }

  lemma NeverWaits(env: Env, lines: seq<seq<Byte>>, e: nat, body: seq<Byte>)
    requires lines != []
    ensures !ParseHead(env, lines, e, body).Incomplete?
  {
    hide Words, SplitHostPort, Join, LowerAll;
  }

  /** A head that is not text is refused, and so is a first line of fewer than three words; of a longer
      one only the first three words matter, and no spacing does. */
  lemma AnyLine(env: Env, line: seq<Byte>, headers: seq<seq<Byte>>, body: seq<Byte>)
    requires CrlfFree(line) && line != [] && forall l :: l in headers ==> l != [] && CrlfFree(l)
    ensures var head, ws := Join([line] + headers) + CRLF, Words(line);
            ParseHttp(env, head + body) ==
            if !env.utf8(head) then Malformed(BadText)
            else if |ws| < 3 then Malformed(BadRequestLine)
            else ParseHead(env, [RequestLine(ws[0], ws[1], ws[2])] + (headers + [[], []]), |head|, body)
  {
    hide SplitLines, HeaderEnd, CrlfFree, IsWord, Words, Kept, HostOf, Join, SplitHostPort, ForwardAuthority;
    var ls, head, ws := [line] + headers, Join([line] + headers) + CRLF, Words(line);
    FirstBlank(ls, body);
    assert head + body == Join(ls) + (CRLF + body);
    assert (head + body)[..|head|] == head && (head + body)[|head|..] == body;
    SplitJoin(ls, CRLF);
    CrlfSplits();
    var tail := headers + [[], []];
    assert ls + [[], []] == [line] + tail;
    if |ws| >= 3 {
      RequestLineWords(ws[0], ws[1], ws[2]);
      var other := [RequestLine(ws[0], ws[1], ws[2])] + tail;
      assert other[1..] == tail && ([line] + tail)[1..] == tail;
    }
  }

  lemma AuthorityEnds(b: Byte)
    ensures EndsAuthority(b) <==> b as int == '/' as int || b as int == '?' as int || b as int == '#' as int
  {
  }
}
