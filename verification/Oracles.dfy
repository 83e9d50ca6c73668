/** Library behaviour the proxy calls into, as fixed functions: every theorem holds for all of them. */
module Oracles {
  import opened Bytes

  /** resolve: the first address of a host and port lookup; connect: whether starting a connection
      to an address succeeds at once; utf8: text validation; lossy: lossy text decoding;
      show: the printed form of an address. */
  datatype Env = Env(
    resolve: (seq<Byte>, Port) -> Option<SockAddr>,
    connect: SockAddr -> bool,
    utf8: seq<Byte> -> bool,
    lossy: seq<Byte> -> seq<Byte>,
    show: SockAddr -> seq<Byte>)

  /** What is used of UTF-8: ASCII octets are characters, and validity of a text is validity of the
      parts on both sides of an ASCII octet, and closed under concatenation. */
  ghost predicate IsTextCheck(utf8: seq<Byte> -> bool) {
    && utf8([])
    && (forall c: Byte :: c < 128 ==> utf8([c]))
    && (forall a, b :: utf8(a) && utf8(b) ==> utf8(a + b))
    && (forall a, c: Byte, b :: c < 128 && utf8(a + [c] + b) ==> utf8(a) && utf8(b))
  }
}
