/** What rewriting a request keeps: its framing, its headers, and its own fixed points. */
module HttpFraming {
  import opened Bytes
  import opened Oracles
  import opened HostPort
  import opened HttpRewrite

  // ---------------------------------------------------------------- a longer buffer

  lemma HeaderEndExtends(buf: seq<Byte>, more: seq<Byte>)
    requires HeaderEnd(buf).Some?
    ensures HeaderEnd(buf + more) == HeaderEnd(buf)
  {
    var e := HeaderEnd(buf).value;
    var s := buf + more;
    assert s[e - 4..e] == buf[e - 4..e];
    forall k: nat | k < e - 4 ensures !BlankAt(s, k) {
      assert !BlankAt(buf, k) && s[k..k + 4] == buf[k..k + 4];
    }
    HeaderEndIs(s, e);
  }

  function WithMoreBody(r: HttpRequest, more: seq<Byte>): HttpRequest {
    if r.protocol == HttpForward then r.(upstream := r.upstream + more) else r
  }

  /** q is the verdict p on a buffer that has grown by the given bytes. */
  ghost predicate Grown(p: Parse<HttpRequest>, q: Parse<HttpRequest>, more: seq<Byte>) {
    && (p.Malformed? ==> q == p)
    && (p.Done? ==> p.value.protocol == HttpTunnel || (p.value.protocol == HttpForward && p.value.upstream != []))
    && (p.Done? ==> q == Done(WithMoreBody(p.value, more)))
  }

  lemma HeadOnMore(env: Env, lines: seq<seq<Byte>>, e: nat, body: seq<Byte>, more: seq<Byte>)
    requires lines != []
    ensures Grown(ParseHead(env, lines, e, body), ParseHead(env, lines, e, body + more), more)
    ensures ParseHead(env, lines, e, body).Done? ==> ParseHead(env, lines, e, body).value.consumed == e
    ensures !ParseHead(env, lines, e, body).Incomplete?
  {
    hide Words, SplitHostPort, Join, Kept, RewrittenLines, HostOf, LowerAll, StartsNoCase, AuthorityLen;
    var parts := Words(lines[0]);
    if |parts| >= 3 {
      var head := Join(RewrittenLines(parts, lines[1..]));
      assert head + (CRLF + (body + more)) == head + (CRLF + body) + more;
      assert |head + (CRLF + body)| >= 2;
    }
  }

  /** A verdict on a buffer is final: more bytes only lengthen the forwarded body. */
  lemma VerdictIsStable(env: Env, buf: seq<Byte>, more: seq<Byte>)
    requires !ParseHttp(env, buf).Incomplete?
    ensures Grown(ParseHttp(env, buf), ParseHttp(env, buf + more), more)
    ensures ParseHttp(env, buf).Done? ==> ParseHttp(env, buf).value.consumed <= |buf|
  {
    hide ParseHead, SplitLines, HeaderEnd, Grown;
    HeaderEndExtends(buf, more);
    var e := HeaderEnd(buf).value;
    assert (buf + more)[..e] == buf[..e];
    assert (buf + more)[e..] == buf[e..] + more;
    HeadOnMore(env, SplitLines(buf[..e]), e, buf[e..], more);
    if !env.utf8(buf[..e]) { TextRefusalGrows(more); }
  }

  lemma TextRefusalGrows(more: seq<Byte>)
    ensures Grown(Malformed(BadText), Malformed(BadText), more)
  {
  }

  // ---------------------------------------------------------------- framing

  lemma RequestLineWords(m: seq<Byte>, uri: seq<Byte>, v: seq<Byte>)
    requires IsWord(m) && IsWord(uri) && IsWord(v)
    ensures Words(RequestLine(m, uri, v)) == [m, uri, v]
    ensures CrlfFree(RequestLine(m, uri, v)) && RequestLine(m, uri, v) != []
  {
    WordThenSpace(v, []);
    WordThenSpace(uri, v);
    WordThenSpace(m, uri + [SPACE] + v);
    assert [m] + ([uri] + [v]) == [m, uri, v];
  }

  lemma OriginFormIsWord(target: seq<Byte>)
    requires IsWord(target)
    ensures IsWord(OriginForm(target)) && !IsAbsolute(OriginForm(target))
  {
    if IsAbsolute(target) {
      var u := OriginForm(target);
      assert u[0] == SLASH;
      if |u| >= 7 { assert LowerAll(u[..7])[0] == SLASH; }
      assert HTTP_SCHEME[0] == 104;
    }
  }

  /** The pieces of a request that is forwarded. */
  lemma ForwardedParts(env: Env, buf: seq<Byte>)
    requires ParseHttp(env, buf).Done? && ParseHttp(env, buf).value.protocol == HttpForward
    ensures var e := HeaderEnd(buf).value;
            var lines := SplitLines(buf[..e]);
            var parts := Words(lines[0]);
            && |parts| >= 3 && LowerAll(parts[0]) != CONNECT && env.utf8(buf[..e])
            && ForwardAuthority(env, parts[1], HostOf(lines[1..])).Done?
            && ParseHttp(env, buf).value.consumed == e
            && ParseHttp(env, buf).value.upstream == Join(RewrittenLines(parts, lines[1..])) + (CRLF + buf[e..])
  {
  }

  lemma RewrittenLinesAreLines(parts: seq<seq<Byte>>, headers: seq<seq<Byte>>)
    requires |parts| >= 3 && forall w :: w in parts ==> IsWord(w)
    requires forall l :: l in headers ==> CrlfFree(l)
    ensures RewrittenLines(parts, headers) != []
    ensures forall l :: l in RewrittenLines(parts, headers) ==> l != [] && CrlfFree(l)
  {
    OriginFormIsWord(parts[1]);
    RequestLineWords(parts[0], OriginForm(parts[1]), parts[2]);
    LiteralHeaders();
  }

  predicate SaysClose(line: seq<Byte>) { LowerAll(line) == Ascii("connection: close") }

  /** up is a message whose head ends at e: below its first line are the surviving headers in their
      order, each header as often as it was there but for empty lines and those for the proxy alone, and
      one Connection header, the last, which says close; then comes the body. */
  ghost predicate Framed(up: seq<Byte>, e: nat, headers: seq<seq<Byte>>, body: seq<Byte>) {
    && HeaderEnd(up) == Some(e) && e <= |up|
    && up[e..] == body
    && var out := SplitLines(up[..e])[1..];
    && out == Kept(headers) + [CONNECTION_CLOSE, [], []]
    && (forall i :: 0 <= i < |out| ==> (StartsNoCase(out[i], CONNECTION) <==> i == |out| - 3))
    && (forall l :: multiset(out[..|out| - 3])[l] == if l == [] || HopByHop(l) then 0 else multiset(headers)[l])
    && SaysClose(out[|out| - 3])
  }

  /** Rewriting keeps the framing: the first blank line of the forwarded message is exactly where the
      original body begins. */
  lemma RewriteKeepsFraming(env: Env, buf: seq<Byte>)
    requires ParseHttp(env, buf).Done? && ParseHttp(env, buf).value.protocol == HttpForward
    ensures var r := ParseHttp(env, buf).value;
            && HeaderEnd(buf) == Some(r.consumed)
            && HeaderEnd(r.upstream).Some?
            && Framed(r.upstream, HeaderEnd(r.upstream).value, SplitLines(buf[..r.consumed])[1..], buf[r.consumed..])
  {
    ForwardedParts(env, buf);
    var e := HeaderEnd(buf).value;
    var lines := SplitLines(buf[..e]);
    FramedByLines(Words(lines[0]), lines[1..], buf[e..]);
  }

  lemma FramedByLines(parts: seq<seq<Byte>>, headers: seq<seq<Byte>>, body: seq<Byte>)
    requires |parts| >= 3 && forall w :: w in parts ==> IsWord(w)
    requires forall l :: l in headers ==> CrlfFree(l)
    ensures var j := Join(RewrittenLines(parts, headers));
            Framed(j + (CRLF + body), |j| + 2, headers, body)
  {
    var ls := RewrittenLines(parts, headers);
    RewrittenHead(parts, headers, body);
    var out := Kept(headers) + [CONNECTION_CLOSE, [], []];
    assert (ls + [[], []])[1..] == out && out[..|out| - 3] == Kept(headers);
    OneConnection(headers);
    CloseIsSaid();
    hide HopByHop, Begins, Words, RewrittenLines;
    forall l ensures multiset(Kept(headers))[l] == if l == [] || HopByHop(l) then 0 else multiset(headers)[l] {
      KeptExactly(headers, l);
    }
  }

  lemma CloseIsSaid()
    ensures SaysClose(CONNECTION_CLOSE)
  {
  }

  lemma OneConnection(headers: seq<seq<Byte>>)
    ensures var out := Kept(headers) + [CONNECTION_CLOSE, [], []];
            forall i :: 0 <= i < |out| ==> (StartsNoCase(out[i], CONNECTION) <==> i == |out| - 3)
  {
    LiteralHeaders();
    assert |CONNECTION| == 11;
    var kept := Kept(headers);
    assert forall i :: 0 <= i < |kept| ==> Survives(kept[i]);
  }

  lemma RewrittenHead(parts: seq<seq<Byte>>, headers: seq<seq<Byte>>, body: seq<Byte>)
    requires |parts| >= 3 && forall w :: w in parts ==> IsWord(w)
    requires forall l :: l in headers ==> CrlfFree(l)
    ensures var ls := RewrittenLines(parts, headers);
            var up := Join(ls) + (CRLF + body);
            var e := |Join(ls)| + 2;
            && HeaderEnd(up) == Some(e)
            && up[..e] == Join(ls) + CRLF && up[e..] == body
            && SplitLines(up[..e]) == ls + [[], []]
  {
    hide RewrittenLines, HeaderEnd;
    var ls := RewrittenLines(parts, headers);
    RewrittenLinesAreLines(parts, headers);
    FirstBlank(ls, body);
    SplitJoin(ls, CRLF);
    CrlfSplits();
  }

  // ---------------------------------------------------------------- text stays text

  lemma {:induction false} AsciiIsText(utf8: seq<Byte> -> bool, s: seq<Byte>)
    requires IsTextCheck(utf8) && forall i :: 0 <= i < |s| ==> s[i] < 128
    ensures utf8(s)
  {
    if s != [] {
      AsciiIsText(utf8, s[1..]);
      assert s == [s[0]] + s[1..];
    }
  }

  /** Cutting a text before an ASCII octet leaves two texts. */
  lemma CutText(utf8: seq<Byte> -> bool, s: seq<Byte>, i: nat)
    requires IsTextCheck(utf8) && utf8(s) && i <= |s| && (i < |s| ==> s[i] < 128)
    ensures utf8(s[..i]) && utf8(s[i..])
    ensures i < |s| ==> utf8(s[i + 1..])
  {
    if i < |s| {
      assert s == s[..i] + [s[i]] + s[i + 1..];
      assert s[i..] == [s[i]] + s[i + 1..];
    } else {
      assert s[..i] == s && s[i..] == [];
    }
  }

  lemma {:induction false} LinesAreText(utf8: seq<Byte> -> bool, s: seq<Byte>)
    requires IsTextCheck(utf8) && utf8(s)
    ensures forall l :: l in SplitLines(s) ==> utf8(l)
  {
    var i := CrlfAt(s);
    if i < |s| {
      CutText(utf8, s, i);
      CutText(utf8, s[i + 1..], 0);
      assert s[i + 1..][1..] == s[i + 2..];
      LinesAreText(utf8, s[i + 2..]);
    }
  }

  lemma {:induction false} WordsAreText(utf8: seq<Byte> -> bool, s: seq<Byte>)
    requires IsTextCheck(utf8) && utf8(s)
    ensures forall w :: w in Words(s) ==> utf8(w)
    decreases |s|
  {
    if s == [] {
    } else if IsSpace(s[0]) {
      CutText(utf8, s, 0);
      WordsAreText(utf8, s[1..]);
    } else {
      var n := WordLen(s);
      CutText(utf8, s, n);
      WordsAreText(utf8, s[n..]);
    }
  }

  lemma {:induction false} JoinIsText(utf8: seq<Byte> -> bool, lines: seq<seq<Byte>>)
    requires IsTextCheck(utf8) && forall l :: l in lines ==> utf8(l)
    ensures utf8(Join(lines))
  {
    if lines != [] {
      assert forall l :: l in lines[1..] ==> l in lines;
      JoinIsText(utf8, lines[1..]);
      AsciiIsText(utf8, CRLF);
      assert utf8(lines[0] + CRLF);
    }
  }

  lemma OriginFormIsText(utf8: seq<Byte> -> bool, target: seq<Byte>)
    requires IsTextCheck(utf8) && utf8(target)
    ensures utf8(OriginForm(target))
  {
    if IsAbsolute(target) {
      AsciiIsText(utf8, [SLASH]);
      assert LowerAll(target[..7])[6] == HTTP_SCHEME[6] == SLASH;
      CutText(utf8, target, 6);
      var rest := target[7..];
      CutText(utf8, rest, AuthorityLen(rest));
    }
  }

  lemma RewrittenLinesAreText(utf8: seq<Byte> -> bool, parts: seq<seq<Byte>>, headers: seq<seq<Byte>>)
    requires |parts| >= 3 && IsTextCheck(utf8)
    requires (forall w :: w in parts ==> utf8(w)) && (forall l :: l in headers ==> utf8(l))
    ensures utf8(Join(RewrittenLines(parts, headers)) + CRLF)
  {
    var m, uri, v := parts[0], OriginForm(parts[1]), parts[2];
    OriginFormIsText(utf8, parts[1]);
    AsciiIsText(utf8, [SPACE]);
    AsciiIsText(utf8, CRLF);
    AsciiIsText(utf8, CONNECTION_CLOSE);
    assert utf8(uri + [SPACE]);
    assert utf8(uri + [SPACE] + v);
    assert utf8(m + [SPACE]);
    assert utf8(RequestLine(m, uri, v));
    JoinIsText(utf8, RewrittenLines(parts, headers));
  }

  // ---------------------------------------------------------------- a second rewriting

  /** The Host of some header lines is there and resolves. */
  predicate HostResolves(env: Env, headers: seq<seq<Byte>>) {
    HostOf(headers).Some? && Resolve(env, SplitHostPort(Trim(HostOf(headers).value), HTTP_PORT)).Done?
  }

  /** Rewriting a rewritten request gives the same bytes, exactly when the original has a Host that
      resolves; otherwise the second parse refuses it. */
  lemma RewriteIsIdempotent(env: Env, buf: seq<Byte>)
    requires IsTextCheck(env.utf8)
    requires ParseHttp(env, buf).Done? && ParseHttp(env, buf).value.protocol == HttpForward
    ensures var r := ParseHttp(env, buf).value;
            var again := ParseHttp(env, r.upstream);
            && r.consumed <= |buf|
            && (again.Done? <==> HostResolves(env, SplitLines(buf[..r.consumed])[1..]))
            && (again.Done? ==> again.value.upstream == r.upstream && again.value.protocol == HttpForward)
            && (!again.Done? ==> again.Malformed?)
  {
    ForwardedParts(env, buf);
    var e := HeaderEnd(buf).value;
    var lines := SplitLines(buf[..e]);
    LinesAreText(env.utf8, buf[..e]);
    WordsAreText(env.utf8, lines[0]);
    RewrittenLinesAreText(env.utf8, Words(lines[0]), lines[1..]);
    SecondParse(env, Words(lines[0]), lines[1..], buf[e..]);
  }

  lemma SecondParse(env: Env, parts: seq<seq<Byte>>, headers: seq<seq<Byte>>, body: seq<Byte>)
    requires |parts| >= 3 && LowerAll(parts[0]) != CONNECT && forall w :: w in parts ==> IsWord(w)
    requires forall l :: l in headers ==> CrlfFree(l)
    requires env.utf8(Join(RewrittenLines(parts, headers)) + CRLF)
    ensures var up := Join(RewrittenLines(parts, headers)) + (CRLF + body);
            var again := ParseHttp(env, up);
            && (again.Done? <==> HostResolves(env, headers))
            && (again.Done? ==> again.value.upstream == up && again.value.protocol == HttpForward)
            && (!again.Done? ==> again.Malformed?)
  {
    hide ParseHead, HostResolves, RewrittenLines, LowerAll, Join;
    var ls := RewrittenLines(parts, headers);
    var e := |Join(ls)| + 2;
    RewrittenHead(parts, headers, body);
    ParseHeadAgain(env, parts, headers, e, body);
    assert ParseHttp(env, Join(ls) + (CRLF + body)) == ParseHead(env, ls + [[], []], e, body);
  }

  lemma ParseHeadAgain(env: Env, parts: seq<seq<Byte>>, headers: seq<seq<Byte>>, e: nat, body: seq<Byte>)
    requires |parts| >= 3 && LowerAll(parts[0]) != CONNECT && forall w :: w in parts ==> IsWord(w)
    ensures var ls := RewrittenLines(parts, headers);
            var again := ParseHead(env, ls + [[], []], e, body);
            && (again.Done? <==> HostResolves(env, headers))
            && (again.Done? ==> again.value.upstream == Join(ls) + (CRLF + body) && again.value.protocol == HttpForward)
            && (!again.Done? ==> again.Malformed?)
  {
    var ls := RewrittenLines(parts, headers);
    var uri := OriginForm(parts[1]);
    OriginFormIsWord(parts[1]);
    var words := [parts[0], uri, parts[2]];
    assert Words(ls[0]) == words by { RequestLineWords(parts[0], uri, parts[2]); }
    var again := Kept(headers) + [CONNECTION_CLOSE, [], []];
    assert (ls + [[], []])[1..] == again && (ls + [[], []])[0] == ls[0];
    assert Kept(again) == Kept(headers) && HostOf(again) == HostOf(headers) by { HeadersAgain(headers); }
    assert RewrittenLines(words, again) == ls;
  }

  lemma HeadersAgain(headers: seq<seq<Byte>>)
    ensures var again := Kept(headers) + [CONNECTION_CLOSE, [], []];
            Kept(again) == Kept(headers) && HostOf(again) == HostOf(headers)
  {
    var tail := [CONNECTION_CLOSE, [], []];
    LiteralHeaders();
    EmptyLineIsNoHost();
    assert tail[..2] == [CONNECTION_CLOSE, []] && tail[..2][..1] == [CONNECTION_CLOSE];
    assert [CONNECTION_CLOSE][..0] == [];
    assert Kept([CONNECTION_CLOSE]) == [] && HostOf([CONNECTION_CLOSE]) == None;
    assert Kept(tail[..2]) == [] && HostOf(tail[..2]) == None;
    assert Kept(tail) == [] && HostOf(tail) == None;
    KeptTwice(headers);
    KeptAppend(Kept(headers), tail);
  }

  /** An absolute-form target is a scheme in any case, an authority free of "/", "?" and "#", and the
      rest: the authority is where the request goes, and the origin server sees the path and query
      with at least a slash, never a fragment alone. */
  lemma AbsoluteTarget(scheme: seq<Byte>, authority: seq<Byte>, path: seq<Byte>)
    requires |scheme| == 7 && LowerAll(scheme) == HTTP_SCHEME
    requires forall k :: 0 <= k < |authority| ==> !EndsAuthority(authority[k])
    requires path != [] ==> EndsAuthority(path[0])
    ensures var t := scheme + (authority + path);
            && IsAbsolute(t)
            && t[7..][..AuthorityLen(t[7..])] == authority
            && OriginForm(t) ==
                 if path == [] || path[0] == 35 then [SLASH]
                 else if path[0] == 63 then [SLASH] + path
                 else path
  {
    var t := scheme + (authority + path);
    assert t[..7] == scheme && t[7..] == authority + path;
    assert AuthorityLen(t[7..]) == |authority| by {
      if path != [] { assert (authority + path)[|authority|] == path[0]; }
      assert forall k :: 0 <= k < |authority| ==> (authority + path)[k] == authority[k];
    }
    assert t[7..][..|authority|] == authority && t[7..][|authority|..] == path;
  }
}
