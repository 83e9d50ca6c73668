/** Values shared by every component: octets, socket addresses and chunk lists. */
module Bytes {

  newtype Byte = b: int | 0 <= b < 256
  type Port = p: int | 0 <= p < 65536

  datatype Option<+T> = None | Some(value: T) {
    function UnwrapOr(d: T): T { if Some? then value else d }
  }

  type Ip4 = ip: seq<Byte> | |ip| == 4 witness [0, 0, 0, 0]
  type Ip6 = ip: seq<Byte> | |ip| == 16 witness [0, 0, 0, 0, 0, 0, 0, 0, 0, 0, 0, 0, 0, 0, 0, 0]

  datatype SockAddr = V4(ip4: Ip4, port: Port) | V6(ip6: Ip6, port: Port)

  const UNSPECIFIED: SockAddr := V4([0, 0, 0, 0], 0)

  /** What one non-blocking read returned. A script of these stands for the peer and the kernel;
      a script that has run out reads as WouldBlock. */
  datatype ReadOutcome = Data(bytes: seq<Byte>) | Eof | ReadBlock | ReadFail

  /** What one non-blocking write returned: up to n bytes taken, WouldBlock, or an error. */
  datatype WriteOutcome = Took(n: nat) | WriteBlock | WriteFail

  /** A socket that has reached end of stream stays there, and a read of no bytes means just that. */
  function Kernel(eof: bool, r: ReadOutcome): ReadOutcome {
    if r.Data? && (eof || r.bytes == []) then Eof else r
  }

  /** The bytes a read loop takes that stops at the first outcome that is not data. */
  function DataOf(eof: bool, script: seq<ReadOutcome>): seq<Byte> {
    if script == [] || !Kernel(eof, script[0]).Data? then []
    else script[0].bytes + DataOf(eof, script[1..])
  }

  /** The outcome at which it stops. */
  function EndOf(eof: bool, script: seq<ReadOutcome>): ReadOutcome {
    if script == [] then ReadBlock
    else if Kernel(eof, script[0]).Data? then EndOf(eof, script[1..])
    else Kernel(eof, script[0])
  }

  /** What a socket is watched for; neither means that it is not registered. */
  datatype Interest = Interest(readable: bool, writable: bool)

  function Min(a: nat, b: nat): nat { if a <= b then a else b }

  /** The bytes of a list of chunks, in order. */
  function Flat(chunks: seq<seq<Byte>>): seq<Byte> {
    if chunks == [] then [] else chunks[0] + Flat(chunks[1..])
  }

  lemma {:induction false} FlatAppend(a: seq<seq<Byte>>, b: seq<seq<Byte>>)
    ensures Flat(a + b) == Flat(a) + Flat(b)
  {
    if a == [] {
      assert a + b == b;
    } else {
      assert (a + b)[1..] == a[1..] + b;
      FlatAppend(a[1..], b);
    }
  }

  lemma FlatPush(a: seq<seq<Byte>>, c: seq<Byte>)
    ensures Flat(a + [c]) == Flat(a) + c
  {
    FlatAppend(a, [c]);
    assert Flat([c]) == c;
  }
}
