/** The authority splitter of the proxy: host, port and a display label. Text is octets. */
module HostPort {
  import opened Bytes

  const COLON: Byte := 58
  const OPEN: Byte := 91
  const CLOSE: Byte := 93
  const PLUS: Byte := 43

  datatype Authority = Authority(host: seq<Byte>, port: Port, display: seq<Byte>)

  /** The least index of c in s, or |s|. */
  function Find(s: seq<Byte>, c: Byte): (i: nat)
    ensures i <= |s| && (i < |s| ==> s[i] == c)
    ensures forall k :: 0 <= k < i ==> s[k] != c
  {
    if s == [] || s[0] == c then 0 else
      1 + Find(s[1..], c)
  }

  /** The greatest index of c in s, if any. */
  function FindLast(s: seq<Byte>, c: Byte): (r: Option<nat>)
    ensures r.Some? ==> r.value < |s| && s[r.value] == c && forall k :: r.value < k < |s| ==> s[k] != c
    ensures r.None? <==> c !in s
  {
    if s == [] then None else if s[|s| - 1] == c then Some(|s| - 1) else
      FindLast(s[..|s| - 1], c)
  }

  predicate IsDigit(b: Byte) { 48 <= b <= 57 }

  function Digit(n: nat): Byte
    requires n < 10
  {
    (48 + n) as Byte
  }

  /** Decimal digits of n, most significant first, without leading zeros. */
  function Decimal(n: nat): (s: seq<Byte>)
    ensures s != [] && forall i :: 0 <= i < |s| ==> IsDigit(s[i])
  {
    if n < 10 then [Digit(n)] else Decimal(n / 10) + [Digit(n % 10)]
  }

  function DigitsValue(s: seq<Byte>): Option<nat> {
    if s == [] then Some(0) else
      var d := s[|s| - 1];
      if !IsDigit(d) then None else
        match DigitsValue(s[..|s| - 1])
        case None => None
        case Some(v) => Some(10 * v + (d as int - 48))
  }

  lemma {:induction false} DecimalValue(n: nat)
    ensures DigitsValue(Decimal(n)) == Some(n)
  {
    if n < 10 {
      assert [Digit(n)][..0] == [];
    } else {
      DecimalValue(n / 10);
      assert Decimal(n)[..|Decimal(n)| - 1] == Decimal(n / 10);
    }
  }

  /** Unsigned 16-bit parse: one optional leading plus before at least one digit, then digits only,
      and a value that fits. */
  function ParsePort(s: seq<Byte>): Option<Port> {
    var digits := if |s| > 1 && s[0] == PLUS then s[1..] else s;
    if digits == [] then None else
      match DigitsValue(digits)
      case None => None
      case Some(v) => if v < 65536 then Some(v) else None
  }

  lemma ParsePrinted(port: Port)
    ensures ParsePort(Decimal(port)) == Some(port)
  {
    DecimalValue(port);
    assert IsDigit(Decimal(port)[0]);
  }

  predicate Bracketed(authority: seq<Byte>) {
    authority != [] && authority[0] == OPEN && Find(authority, CLOSE) < |authority|
  }

  function BracketLabel(host: seq<Byte>, port: Port): seq<Byte> {
    [OPEN] + host + [CLOSE, COLON] + Decimal(port)
  }

  function PlainLabel(host: seq<Byte>, port: Port): seq<Byte> {
    host + [COLON] + Decimal(port)
  }

  function SplitHostPort(authority: seq<Byte>, defaultPort: Port): Authority {
    if Bracketed(authority) then
      var idx := Find(authority, CLOSE);
      var host := authority[1..idx];
      var rest := authority[idx + 1..];
      var port :=
        if rest != [] && rest[0] == COLON && ParsePort(rest[1..]).Some?
        then ParsePort(rest[1..]).value else defaultPort;
      Authority(host, port, BracketLabel(host, port))
    else
      match FindLast(authority, COLON)
      case Some(i) =>
        if COLON !in authority[..i] && ParsePort(authority[i + 1..]).Some?
        then
          var port := ParsePort(authority[i + 1..]).value;
          Authority(authority[..i], port, PlainLabel(authority[..i], port))
        else Authority(authority, defaultPort, PlainLabel(authority, defaultPort))
      case None => Authority(authority, defaultPort, PlainLabel(authority, defaultPort))
  }

  lemma PlainLabelSplits(host: seq<Byte>, port: Port, d: Port)
    requires !Bracketed(PlainLabel(host, port))
    ensures COLON !in host ==> SplitHostPort(PlainLabel(host, port), d) == Authority(host, port, PlainLabel(host, port))
    ensures COLON in host ==> SplitHostPort(PlainLabel(host, port), d).host == PlainLabel(host, port) != host
  {
    var l := PlainLabel(host, port);
    assert l[..|host|] == host && l[|host| + 1..] == Decimal(port);
    assert FindLast(l, COLON) == Some(|host|);
    ParsePrinted(port);
  }

  lemma BracketLabelSplits(host: seq<Byte>, port: Port, d: Port)
    requires CLOSE !in host
    ensures Bracketed(BracketLabel(host, port))
    ensures SplitHostPort(BracketLabel(host, port), d) == Authority(host, port, BracketLabel(host, port))
  {
    var l := BracketLabel(host, port);
    assert l[..1 + |host|] == [OPEN] + host;
    assert forall k :: 1 <= k <= |host| ==> l[k] == host[k - 1] && l[k] != CLOSE;
    assert l[1 + |host|] == CLOSE;
    assert Find(l, CLOSE) == 1 + |host|;
    assert l[1..1 + |host|] == host;
    assert l[1 + |host| + 1..] == [COLON] + Decimal(port);
    assert ([COLON] + Decimal(port))[1..] == Decimal(port);
    ParsePrinted(port);
  }

  lemma {:induction false} DigitsHaveNoColon(s: seq<Byte>)
    requires DigitsValue(s).Some?
    ensures COLON !in s
  {
    if s != [] {
      DigitsHaveNoColon(s[..|s| - 1]);
      assert s == s[..|s| - 1] + [s[|s| - 1]];
    }
  }

  /** What an unbracketed authority means: h:p with a colon-free h is host h and port p when p is a
      port, and otherwise one bare host on the default port; so is a text without a colon. */
  lemma PlainReading(h: seq<Byte>, p: seq<Byte>, d: Port)
    requires COLON !in h
    ensures !Bracketed(h) ==> SplitHostPort(h, d) == Authority(h, d, PlainLabel(h, d))
    ensures var a := h + [COLON] + p;
            var host := if ParsePort(p).Some? then h else a;
            var port := ParsePort(p).UnwrapOr(d);
            !Bracketed(a) ==> SplitHostPort(a, d) == Authority(host, port, PlainLabel(host, port))
  {
    var a := h + [COLON] + p;
    assert a[..|h|] == h && a[|h| + 1..] == p;
    var i := FindLast(a, COLON).value;
    if ParsePort(p).Some? {
      DigitsHaveNoColon(if |p| > 1 && p[0] == PLUS then p[1..] else p);
      assert forall k :: |h| < k < |a| ==> a[k] == p[k - |h| - 1];
      assert i == |h|;
    } else if i != |h| {
      assert a[..i][|h|] == COLON;
    }
  }

  /** What a bracketed authority means: the host is the text inside the brackets, whatever colons
      it has, and the port follows ":" right after them or is the default one. */
  lemma BracketReading(h: seq<Byte>, rest: seq<Byte>, d: Port)
    requires CLOSE !in h
    ensures var a := SplitHostPort([OPEN] + h + [CLOSE] + rest, d);
            && a.host == h && a.display == BracketLabel(h, a.port)
            && a.port == (if rest != [] && rest[0] == COLON then ParsePort(rest[1..]).UnwrapOr(d) else d)
  {
    var t := [OPEN] + h + [CLOSE] + rest;
    assert forall k :: 1 <= k <= |h| ==> t[k] == h[k - 1] && t[k] != CLOSE;
    assert t[1 + |h|] == CLOSE;
    assert Find(t, CLOSE) == 1 + |h|;
    assert t[1..1 + |h|] == h && t[|h| + 2..] == rest;
  }

  /** What follows the first colon of the text is a port. */
  predicate PortAfterColon(s: seq<Byte>) {
    var i := Find(s, COLON);
    i < |s| && ParsePort(s[i + 1..]).Some?
  }

  /** An unbracketed host keeps a colon exactly when there is one that is not followed by a port alone. */
  lemma ColonStays(authority: seq<Byte>, d: Port)
    requires !Bracketed(authority)
    ensures COLON in SplitHostPort(authority, d).host <==> COLON in authority && !PortAfterColon(authority)
  {
    var i := Find(authority, COLON);
    if i < |authority| {
      assert forall k :: 0 <= k < i ==> authority[..i][k] == authority[k];
      assert authority == authority[..i] + [COLON] + authority[i + 1..];
      PlainReading(authority[..i], authority[i + 1..], d);
    }
  }

  /** The label is a canonical form of the authority: splitting it again, whatever the default port,
      gives the same host, port and label, exactly when the authority is bracketed, has no colon, or has
      a port behind its first colon. */
  lemma LabelIsCanonical(authority: seq<Byte>, d: Port, e: Port)
    ensures var a := SplitHostPort(authority, d);
            var canonical := Bracketed(authority) || COLON !in authority || PortAfterColon(authority);
            SplitHostPort(a.display, e) == a <==> canonical
  {
    var a := SplitHostPort(authority, d);
    if Bracketed(authority) {
      var idx := Find(authority, CLOSE);
      assert forall k :: 0 <= k < |a.host| ==> a.host[k] == authority[..idx][k + 1];
      BracketLabelSplits(a.host, a.port, e);
    } else {
      ColonStays(authority, d);
      assert a.host <= authority;
      assert !Bracketed(a.display);
      PlainLabelSplits(a.host, a.port, e);
    }
  }
}
