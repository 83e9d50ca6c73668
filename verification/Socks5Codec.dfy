/** SOCKS5 messages, RFC 1928 sections 3 to 6, as the proxy reads and writes them. */
module Socks5Codec {
  import opened Bytes
  import opened Oracles
  import opened HostPort
  import opened HttpRewrite

  const VERSION: Byte := 0x05
  const CMD_CONNECT: Byte := 0x01
  const ATYP_V4: Byte := 0x01
  const ATYP_DOMAIN: Byte := 0x03
  const ATYP_V6: Byte := 0x04

  const REP_SUCCEEDED: Byte := 0x00
  const REP_FAILURE: Byte := 0x01
  const REP_REFUSED: Byte := 0x05
  const REP_COMMAND: Byte := 0x07
  const REP_ADDRESS_TYPE: Byte := 0x08

  function PortBytes(p: Port): seq<Byte> { [(p / 256) as Byte, (p % 256) as Byte] }

  function PortOf(hi: Byte, lo: Byte): Port { hi as int * 256 + lo as int }

  function AddressBytes(a: SockAddr): seq<Byte> {
    match a
    case V4(ip, port) => [ATYP_V4] + ip + PortBytes(port)
    case V6(ip, port) => [ATYP_V6] + ip + PortBytes(port)
  }

  function EncodeReply(rep: Byte, bound: SockAddr): seq<Byte> {
    [VERSION, rep, 0x00] + AddressBytes(bound)
  }

  datatype TargetRequest = TargetRequest(consumed: nat, target: SockAddr, display: seq<Byte>)

  function ParseTarget(env: Env, buf: seq<Byte>): Parse<TargetRequest> {
    if |buf| < 4 then Incomplete
    else if buf[0] != VERSION then Malformed(BadVersion)
    else if buf[2] != 0x00 then Malformed(BadReserved)
    else if buf[1] != CMD_CONNECT then Malformed(BadCommand)
    else if buf[3] == ATYP_V4 then
      if |buf| < 10 then Incomplete else
        var a := V4(buf[4..8], PortOf(buf[8], buf[9]));
        Done(TargetRequest(10, a, env.show(a)))
    else if buf[3] == ATYP_DOMAIN then
      if |buf| < 5 then Incomplete else
        var n := buf[4] as int;
        if |buf| < 5 + n + 2 then Incomplete else
          var host := env.lossy(buf[5..5 + n]);
          var port := PortOf(buf[5 + n], buf[5 + n + 1]);
          match env.resolve(host, port)
          case Some(a) => Done(TargetRequest(5 + n + 2, a, host + [COLON] + Decimal(port)))
          case None => Malformed(ResolveFailed)
    else if buf[3] == ATYP_V6 then
      if |buf| < 22 then Incomplete else
        var a := V6(buf[4..20], PortOf(buf[20], buf[21]));
        Done(TargetRequest(22, a, env.show(a)))
    else Malformed(BadAddressType)
  }

  /** The reply code for a refused request. */
  function RefusalCode(reason: Reason): Byte {
    match reason
    case BadCommand => REP_COMMAND
    case BadAddressType => REP_ADDRESS_TYPE
    case _ => REP_FAILURE
  }

  /** Ports are in network order, as RFC 1928 section 4 has them. */
  lemma NetworkOrder(hi: Byte, lo: Byte)
    ensures PortBytes(PortOf(hi, lo)) == [hi, lo] && PortOf(hi, lo) == 256 * hi as int + lo as int
  {
  }

  /** The octets of requests and replies, RFC 1928 sections 4 to 6: version, code, reserved, kind of
      address, address, port. */
  lemma OctetsOfAddress(rep: Byte, ip: Ip4, ip6: Ip6, hi: Byte, lo: Byte)
    ensures EncodeReply(rep, V4(ip, PortOf(hi, lo))) == [5, rep, 0, 1] + ip + [hi, lo]
    ensures EncodeReply(rep, V6(ip6, PortOf(hi, lo))) == [5, rep, 0, 4] + ip6 + [hi, lo]
  {
    NetworkOrder(hi, lo);
  }

  /** The target of a request is what its octets say, and a refused request is answered by its code. */
  lemma TargetOctets(env: Env, ip: Ip4, ip6: Ip6, name: seq<Byte>, hi: Byte, lo: Byte)
    requires |name| < 256
    ensures ParseTarget(env, [5, 1, 0, 1] + ip + [hi, lo]) ==
            Done(TargetRequest(10, V4(ip, 256 * hi as int + lo as int), env.show(V4(ip, PortOf(hi, lo)))))
    ensures ParseTarget(env, [5, 1, 0, 4] + ip6 + [hi, lo]) ==
            Done(TargetRequest(22, V6(ip6, 256 * hi as int + lo as int), env.show(V6(ip6, PortOf(hi, lo)))))
    ensures var r := ParseTarget(env, [5, 1, 0, 3, |name| as Byte] + name + [hi, lo]);
            match env.resolve(env.lossy(name), 256 * hi as int + lo as int)
            case Some(a) => r.Done? && r.value.target == a && r.value.consumed == |name| + 7
            case None => r == Malformed(ResolveFailed)
    ensures RefusalCode(BadCommand) == 7 && RefusalCode(BadAddressType) == 8 && RefusalCode(ResolveFailed) == 1
    ensures RefusalCode(BadVersion) == 1 && RefusalCode(BadReserved) == 1
  {
    var four, six := [5, 1, 0, 1] + ip + [hi, lo], [5, 1, 0, 4] + ip6 + [hi, lo];
    assert four[4..8] == ip && four[8] == hi && four[9] == lo;
    assert six[4..20] == ip6 && six[20] == hi && six[21] == lo;
    var named := [5, 1, 0, 3, |name| as Byte] + name + [hi, lo];
    assert named[5..5 + |name|] == name && named[5 + |name|] == hi && named[6 + |name|] == lo;
  }

  /** Reading back an encoded address, whatever follows it, gives the address and consumes exactly
      its encoding. */
  lemma ParseEncoded(env: Env, a: SockAddr, rest: seq<Byte>)
    ensures var m := EncodeReply(CMD_CONNECT, a);
            && ParseTarget(env, m + rest) == Done(TargetRequest(|m|, a, env.show(a)))
            && forall k :: 0 <= k < |m| ==> ParseTarget(env, m[..k]).Incomplete?
  {
    var m := EncodeReply(CMD_CONNECT, a);
    var buf := m + rest;
    assert buf[..|m|] == m;
    match a
    case V4(ip, port) =>
      assert buf[4..8] == ip;
      assert buf[8] == PortBytes(port)[0] && buf[9] == PortBytes(port)[1];
    case V6(ip, port) =>
      assert buf[4..20] == ip;
      assert buf[20] == PortBytes(port)[0] && buf[21] == PortBytes(port)[1];
  }

  lemma SlicesOf(buf: seq<Byte>, n: nat)
    requires 6 <= n <= |buf| && buf[..3] == [VERSION, CMD_CONNECT, 0x00]
    ensures [VERSION, CMD_CONNECT, 0x00] + ([buf[3]] + buf[4..n - 2] + PortBytes(PortOf(buf[n - 2], buf[n - 1]))) ==
      buf[..n]
  {
  }

  /** Conversely, an accepted address request is the encoding of the address read from it. */
  lemma EncodeParsed(env: Env, buf: seq<Byte>)
    requires ParseTarget(env, buf).Done? && buf[3] != ATYP_DOMAIN
    ensures var r := ParseTarget(env, buf).value;
            r.consumed <= |buf| && EncodeReply(CMD_CONNECT, r.target) == buf[..r.consumed]
  {
    assert buf[..3] == [VERSION, CMD_CONNECT, 0x00];
    SlicesOf(buf, ParseTarget(env, buf).value.consumed);
  }

  /** A domain request is accepted exactly when its name resolves. */
  lemma ParseDomain(env: Env, name: seq<Byte>, port: Port, rest: seq<Byte>)
    requires |name| < 256
    ensures var m := [VERSION, CMD_CONNECT, 0x00, ATYP_DOMAIN, |name| as Byte] + name + PortBytes(port);
            var host := env.lossy(name);
            ParseTarget(env, m + rest) ==
              if env.resolve(host, port).Some?
              then Done(TargetRequest(|m|, env.resolve(host, port).value, host + [COLON] + Decimal(port)))
              else Malformed(ResolveFailed)
  {
    var m := [VERSION, CMD_CONNECT, 0x00, ATYP_DOMAIN, |name| as Byte] + name + PortBytes(port);
    var buf := m + rest;
    assert buf[5..5 + |name|] == name;
    assert buf[5 + |name|] == PortBytes(port)[0] && buf[6 + |name|] == PortBytes(port)[1];
  }

  /** A verdict does not change when more bytes arrive, and a target uses only bytes that are there. */
  lemma TargetIsStable(env: Env, buf: seq<Byte>, more: seq<Byte>)
    requires !ParseTarget(env, buf).Incomplete?
    ensures ParseTarget(env, buf + more) == ParseTarget(env, buf)
    ensures ParseTarget(env, buf).Done? ==> 0 < ParseTarget(env, buf).value.consumed <= |buf|
  {
    var s := buf + more;
    assert s[..|buf|] == buf;
    assert forall i :: 0 <= i < |buf| ==> s[i] == buf[i];
    if |buf| >= 10 { assert s[4..8] == buf[4..8]; }
    if |buf| >= 22 { assert s[4..20] == buf[4..20]; }
    if |buf| >= 5 && |buf| >= 7 + buf[4] as int {
      var n := buf[4] as int;
      assert s[5..5 + n] == buf[5..5 + n];
    }
  }
}
