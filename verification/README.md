# Model of a port forwarder and proxy

A Dafny model of the five parts of the forwarder in which bytes or sessions pass through mutable tables, and
proofs that a simple specification survives every interleaving of events. `dafny verify dfyconfig.toml` checks it.

* **SOCKS5/HTTP proxy** (`listen_socks5`). `HostPort`, `HttpRewrite`, `HttpFraming`, `HttpTargets` and `Socks5Codec` are
  the parsers and encoders (RFC 1928 sections 3 to 6, RFC 9112 section 3.2.2, RFC 9110 section 9.3.6). `Handshake` is the state
  loop as a function of the client's bytes. `OffsetQueue` is the outgoing queue. `SessionModel` is one session: its
  record, what each event does to it, and what always holds; `SessionEvents` says of single events what they write and
  when they list the session for closing, `SessionRuns`, `SessionCorners` and `SessionLosses` what that means over whole
  runs. `ProxySession` holds the loops of the event handlers, proved to do exactly what the model says;
  `ProxyServer` is the class with the session table, the token map and the list of sessions to close.
* **Forward-mode relay** (`listen`). `ForwardPair` is one pair of sockets with its chunk buffers, `ForwardRuns` its
  runs, `ForwardRouting` its target, and `ForwardRelay` the class with the tables of all pairs.
* **Substring search** (`build_kmp_table`, `kmp_search`): `Kmp`.
* **UDP sessions** (`UdpForwarder::listen`). `UdpTables` has the loops over queues and stamps, `UdpMachine` the tables
  and turns as values, `UdpSteps` what each step does to each session, `UdpRuns` and `UdpBatches` what holds of runs and
  of what one poll reports; `UdpForwarder` is the class with the maps.

## How sockets appear

A read returns bytes, end of stream, WouldBlock or an error; a write takes some bytes, would block or fails. Each event
carries the outcomes its loops will see, as a script; a script that has run out reads as WouldBlock, and a socket that
has ended stays ended. Theorems hold for all scripts. Host lookup, whether a connection starts, the address and target
rules, text decoding and the printed form of an address are fixed functions about which nothing is assumed, except
that idempotence of the HTTP rewriting takes text validity to be that of UTF-8 as far as `Oracles.IsTextCheck` says.
Histories of bytes read and written are kept beside the state, and the theorems are about them.

Each class has a `Valid` predicate that every handler keeps, and each handler states its whole effect: in the relay, as
the effect on the pair it serves together with the fact that no other pair changes; in the proxy and the UDP
forwarder, as a step of a machine on values. The event loops are proved to be such machines run over all turns, so
what is proved of a single step or run holds of the tables at every moment.

## Where the code does not do what one would expect

Each of these is proved: by a concrete run, by the exact condition, or by both.

* A remote's bytes that are read before its connection is finished are queued before the reply to the client
  (`EarlyByteOvertakesReply`); `VerdictComesFirst` has the condition, event by event.
* A remote's end of stream that is read before its connection is finished lists the session as closed by its remote,
  and then the reply is queued and dropped with it: for SOCKS5 (`EarlyEofDropsReply`) and for the 200 line of a tunnel
  alike. `DeliveredUnlessDropped` has the condition for one event, `RemoteClosedAfterDelivery` for runs.
* A client's end of stream read outside relay shuts the remote's write half although the client's buffer may hold bytes
  for it, or just got them (`EofWhileConnectingCuts`). `CompletedUnlessCut` has the condition for one event,
  `UpstreamHalfClose` for runs; in relay it never happens.
* A session that is listed for closing at the end of a stream may have content of its client queued for the remote, which
  goes with it: in relay, the end of the remote's stream is enough (`EofAbandons`). `AbandonedOnlyThen` has the condition.
* In forward mode an end of stream that follows other reads of the same event is not acted on (`EndIsSeenFirst`), and
  with a pause threshold of zero a socket that was read once is never watched for reading again (`NoRoomStarves`,
  `NeverStuck`).
* In forward mode a pair that finds no target for its first bytes is removed, but its read loop goes on. If a later chunk
  of the same event has a target, the code connects to it, and the next event of that socket, whose client is gone, makes
  the loop fail (`LaterChunkStrands`); `Listen` says that nothing else does.
* The comment at src/udp_forwarder.rs:106 wants unique stamps; the code that follows takes the smallest stamp in use into
  account, which does not make them unique (`StaleClockCollides`). They stay unique over a turn, whatever its events,
  exactly when every stamp left by its sweep is below the time it starts from, or there is one session at most and no room
  for another (`TurnKeepsStamps`); a clock beyond every stamp in use is enough (`LateClockIsClear`).
* A UDP session that is to be closed for two reasons before one sweep makes that sweep fail on its second removal. One
  event can give two (`OneReasonOnly`), and so can a failed send and the lifespan (`MarkedThenOutdated`). With what a poll
  reports, nothing else but an error of receiving at the listener ends that loop (`OnlySweepsFail`).
* A reply that would block is dropped, not kept (`SendBackLoses`).
* Splitting the label of an unbracketed host with a colon does not give the host back (`LabelIsCanonical`).

## Model
| member | source | states |
|---|---|---|
| Kmp.BuildKmpTable | src/connection_plugin.rs:20-41 | entry i of the table is the length of the longest proper border of the first i + 1 bytes; for a non-empty pattern the loop makes at most 2 * (length - 1) turns, all reads in range |
| Kmp.KmpSearch | src/connection_plugin.rs:43-70 | returns the least index at which the pattern occurs, and none exactly when it occurs nowhere; the loop makes at most twice as many turns as there are bytes of text |
| Kmp.FallBack | src/connection_plugin.rs:31-33 | the next candidate after a mismatch is the longest border of the border: no longer border that could be extended is passed over |
| Kmp.ShiftSkipsNothing | src/connection_plugin.rs:61-63 | shifting the pattern by its longest border after a mismatch skips no occurrence |
| HostPort.LabelIsCanonical | src/tcp_forwarder.rs:999-1028 | splitting the label again, with any default port, gives the same host, port and label if and only if the authority is bracketed, has no colon, or has a port behind its first colon |
| HostPort.PlainReading | src/tcp_forwarder.rs:1017-1027 | host, colon and printed port read back as that host and port; without a port the default is used |
| HostPort.BracketReading | src/tcp_forwarder.rs:1000-1016 | the same for a bracketed host, which may hold colons; what follows the bracket counts only as a colon and a port |
| HostPort.ParsePrinted | src/tcp_forwarder.rs:1006-1007 | a port printed in decimal parses back to itself |
| HttpRewrite.FindHeaderEnd | src/tcp_forwarder.rs:987-997 | the position after the first blank line, and none exactly when there is no blank line |
| HttpRewrite.HeaderEndIs | src/tcp_forwarder.rs:987-997 | a blank line with none before it ends the header |
| HttpRewrite.CollectHeaders | src/tcp_forwarder.rs:1070-1087 | the loop passes on the surviving lines in order, each with its line end, then one Connection: close, and finds the last Host |
| HttpRewrite.KeptExactly | src/tcp_forwarder.rs:1070-1087 | every header line survives as often as it is there, but for empty lines and those that begin, in any case, with connection: or proxy-connection:, of which none does |
| HttpRewrite.HostOfMore | src/tcp_forwarder.rs:1075-1077 | the Host is the value of the last line that begins with host:, in any case, without the space around it; none without such a line |
| HttpRewrite.TrimMeans | src/tcp_forwarder.rs:1076 | trimming cuts off space on both sides, and all of it |
| HttpRewrite.ParseHttpProxyRequest | src/tcp_forwarder.rs:1037-1131 | the parser's loops and branches compute the specified parse: wait, a request, or a refusal |
| HttpRewrite.SplitJoin | src/tcp_forwarder.rs:1044-1045 | lines joined with line ends and split at them again are the same lines |
| HttpRewrite.KeptTwice | src/tcp_forwarder.rs:1070-1087 | filtering the surviving headers again drops nothing and finds the same Host |
| HttpFraming.RewriteKeepsFraming | src/tcp_forwarder.rs:1070-1130 | the first blank line of the rewritten message is where the original body begins; the headers keep their order, each there exactly as often as it was, but for empty lines and those for the proxy alone; exactly one Connection line is there, the last, and it says close |
| HttpFraming.FramedByLines | src/tcp_forwarder.rs:1117-1121 | the same for every request line of words and every header list, without the parser |
| HttpFraming.RewriteIsIdempotent | src/tcp_forwarder.rs:1037-1131 | rewriting the rewritten message succeeds if and only if the Host header is there and resolves, and then gives the same bytes |
| HttpFraming.SecondParse | src/tcp_forwarder.rs:1037-1131 | the second parse of a rewritten message, for all parts and headers: accepted exactly when the Host resolves, with the same upstream bytes |
| HttpFraming.VerdictIsStable | src/tcp_forwarder.rs:1037-1131 | once the parser accepts or refuses a buffer, more bytes change nothing but the body: the base of segmentation independence |
| HttpFraming.AbsoluteTarget | src/tcp_forwarder.rs:1089-1106 | an absolute-form target splits into its authority and its origin-form path, whatever the case of the scheme |
| HttpTargets.TunnelTarget | src/tcp_forwarder.rs:1055-1068 | CONNECT, in any case, asks for a tunnel to its authority, port 443 unless it has one, and leaves what follows the head in the buffer |
| HttpTargets.AbsoluteRequest | src/tcp_forwarder.rs:1089-1131 | another request whose target begins with http:// goes to the authority of the target, port 80 unless it has one, with the rest as origin form, / for none; its message is sent on with that target, the surviving headers and Connection: close |
| HttpTargets.OriginRequest | src/tcp_forwarder.rs:1107-1131 | any other request goes to its last Host, port 80 unless it has one, with its target as it is; without a Host it is refused |
| HttpTargets.WaitsForHead | src/tcp_forwarder.rs:1037-1043 | a head is waited for if and only if there is no blank line yet |
| HttpTargets.AnyLine | src/tcp_forwarder.rs:1044-1054 | a head that is not text is refused, and so is a first line of fewer than three words; of a longer one only the first three words matter, and no spacing does |
| Socks5Codec.ParseEncoded | src/tcp_forwarder.rs:842-860 | parsing an encoded address followed by any bytes gives the address and consumes exactly the encoding; every proper prefix waits for more |
| Socks5Codec.EncodeParsed | src/tcp_forwarder.rs:929-985 | encoding an accepted IPv4 or IPv6 request again gives the bytes it consumed |
| Socks5Codec.ParseDomain | src/tcp_forwarder.rs:953-969 | a request by name consumes its exact length and goes to what the name resolves to, or is refused |
| Socks5Codec.OctetsOfAddress | src/tcp_forwarder.rs:842-860 | a reply is 05, its code, 00, the kind of address 01 or 04, the address, and the port in network order |
| Socks5Codec.TargetOctets | src/tcp_forwarder.rs:929-985 | the target of a complete request of each kind is the address, or the name to look up, that its octets say, with the port in network order; the codes of refusals are 07, 08 and 01 |
| Socks5Codec.TargetIsStable | src/tcp_forwarder.rs:929-985 | more bytes never change an accepted or refused request |
| Handshake.SegmentationIndependence | src/tcp_forwarder.rs:1406-1583 | however the client's bytes are cut into reads, the handshake reaches the same phase, protocol, target, replies and upstream content as on one read of them all |
| Handshake.PlanAdvances | src/tcp_forwarder.rs:1406-1583 | running the state loop after a further read gives the outcome of one read of the longer text |
| Handshake.SocksConnect | src/tcp_forwarder.rs:1482-1555 | a SOCKS5 client offering no authentication gets 05 00, its target is the address it asked for, all that follows goes upstream, and a refused connection adds the refusal |
| Handshake.SocksConnectByName | src/tcp_forwarder.rs:1509-1574 | the same for a request by name, with what the name resolves to as target; a name that does not resolve is refused with 01 and the close, without a connection |
| Handshake.SocksRefused | src/tcp_forwarder.rs:1556-1574 | whatever else the request holds: 07 for a command other than CONNECT, 08 for an unknown kind of address, 01 for a malformed head, then the close, without a connection |
| Handshake.SocksRuns | src/tcp_forwarder.rs:1482-1575 | a complete request behind an accepted greeting decides the plan in one step |
| Handshake.SocksNoMethod | src/tcp_forwarder.rs:1501-1508 | a client without that method gets 05 FF and is closed, with no connection made |
| Handshake.HttpConnect | src/tcp_forwarder.rs:1417-1469 | a forwarded request sends its rewritten message, a tunnel everything after its head; 502 and the close when the connection cannot be started |
| Handshake.HttpRefused | src/tcp_forwarder.rs:1470-1480 | bytes that begin no greeting are refused, without a reply, if and only if the parser refuses them; while it waits for more they are kept and nothing else happens |
| OffsetQueue.FlushQueue | src/tcp_forwarder.rs:862-885 | the loop over the queue does what the specified flush does: rest, bytes taken, and whether the socket works |
| OffsetQueue.FlushConserves | src/tcp_forwarder.rs:862-885 | bytes taken, then bytes left, are the bytes that were pending: none lost, repeated or reordered; no empty chunk is left |
| OffsetQueue.FlushDrains | src/tcp_forwarder.rs:862-885 | a socket that takes something at every write, often enough, gets everything |
| OffsetQueue.FlushOne | src/tcp_forwarder.rs:864-878 | one write that takes something moves that much of the front chunk, from the front |
| OffsetQueue.FlushStops | src/tcp_forwarder.rs:868-882 | a write that would block, fails or takes nothing moves nothing and is the last |
| OffsetQueue.FlushSplits | src/tcp_forwarder.rs:862-885 | behind writes that take something the flush goes on from what they left |
| OffsetQueue.FlushFailsOnError | src/tcp_forwarder.rs:868-882 | a socket is reported broken if and only if a write fails, or takes nothing, behind writes that took something and did not empty the queue |
| SessionModel.ReadRemoteReads | src/tcp_forwarder.rs:1230-1255 | reading the remote adds to its history exactly the bytes that were there |
| SessionModel.ReadRemoteSeesEof | src/tcp_forwarder.rs:1235-1242 | the end of the remote's stream is noted exactly when it comes |
| SessionModel.TakeRemoteKeeps | src/tcp_forwarder.rs:1234-1253 | every outcome of a read of the remote keeps the session in order |
| SessionModel.FailConnectKeeps | src/tcp_forwarder.rs:1259-1282 | a failed connection queues the refusal of its protocol and leaves a closing session with something to flush |
| SessionModel.FinishConnectKeeps | src/tcp_forwarder.rs:1283-1319 | a made connection queues its reply and passes on what the client sent before, each byte once |
| SessionModel.FlushRemoteKeeps | src/tcp_forwarder.rs:1322-1328 | writing to the remote keeps the session in order |
| SessionModel.TakeClientKeeps | src/tcp_forwarder.rs:1349-1382 | every outcome of a read of the client adds its bytes, and only those, to the planned content |
| SessionModel.WriteClientKeeps | src/tcp_forwarder.rs:1385-1404 | writing to the client, its half-close and the listing for closing keep the session in order |
| SessionModel.ShakeStepStands | src/tcp_forwarder.rs:1406-1583 | a turn of the state loop on a session is a step of the handshake |
| SessionRuns.OnRemoteKeeps | src/tcp_forwarder.rs:1228-1343 | every event on the remote keeps the session valid |
| SessionRuns.OnClientKeeps | src/tcp_forwarder.rs:1344-1597 | every event on the client keeps the session valid and reads exactly what was there |
| SessionRuns.RunIsValid | src/tcp_forwarder.rs:1189-1598 | every run of events leads to a valid session |
| SessionRuns.UpstreamConservation | src/tcp_forwarder.rs:1314-1328 | while connecting and in relay, bytes sent to the remote, then queued, then still buffered, are the planned content of the client's bytes, each once and in order; in relay the buffer is empty and the counter exact |
| SessionRuns.DownstreamOrder | src/tcp_forwarder.rs:1283-1302 | on every run, what the client was sent and what waits for it is the replies, the bytes of the remote read while connecting, the verdict and the bytes read since; the counter counts the remote's bytes alone |
| SessionRuns.NothingIsStuck | src/tcp_forwarder.rs:887-927 | after every event a socket is watched for writing exactly when there is something to write (or a connection to make), and for reading until its end, and beyond only while there is nothing to write; a session that is closing, or whose remote has ended, has something to flush or is listed for closing |
| SessionLosses.QueuedInOrder | src/tcp_forwarder.rs:1228-1343 | what an event queues for the client comes after all that was queued before; an event on the remote queues exactly the bytes it reads and behind them the verdict on the connection, one on the client only replies of the handshake |
| SessionLosses.VerdictComesFirst | src/tcp_forwarder.rs:1243-1302 | in relay the reply on the connection stands before all of the remote's bytes if and only if no event of the run read any while the connection was being made, or the protocol has no such reply |
| SessionLosses.CompletedUnlessCut | src/tcp_forwarder.rs:1329-1360 | one event, of any kind: the remote's write half is shut with all the client's content sent, unless the event is one that cuts off, which is a condition on the session and the event before it: outside relay, nothing queued, bytes in the buffer or read with the end of stream |
| SessionLosses.UpstreamHalfClose | src/tcp_forwarder.rs:1329-1360 | all along a run a shut remote was sent all of the client's content if and only if no event of the run cuts off; and it is shut only after the client's end of stream |
| SessionLosses.DeliveredUnlessDropped | src/tcp_forwarder.rs:1235-1319 | one event, of any kind: it leaves something undelivered behind a session listed as closed by its remote if and only if it makes a SOCKS5 or tunnel connection whose end of stream is known with nothing queued and nothing read, and writing to the remote does not fail |
| SessionLosses.RemoteClosedAfterDelivery | src/tcp_forwarder.rs:1400-1403 | all along a run a session listed as closed by its remote has told its client everything if and only if no event of the run drops a reply; so listed, it is after the end of the remote's stream |
| SessionLosses.AbandonedOnlyThen | src/tcp_forwarder.rs:1228-1597 | one event, of any kind: after it the session is listed for closing at the end of a stream with content of its client unsent, if and only if a condition on the session and the event before it holds |
| SessionLosses.EofAbandons | src/tcp_forwarder.rs:1235-1239 | in relay, the end of the remote's stream with nothing queued for the client is such an event whenever something waits for the remote |
| SessionCorners.PhasesMoveForward | src/tcp_forwarder.rs:1407-1583 | over every event the phase moves forward in its order if at all, and relay stays relay |
| SessionCorners.UpstreamDrains | src/tcp_forwarder.rs:1322-1338 | in relay, one writable event on a remote that takes something each time sends all of the content, ends the wish to write and shuts behind a client that has ended |
| SessionCorners.DownstreamDrains | src/tcp_forwarder.rs:1385-1404 | the same toward the client: all sent, a closing or ended session listed, the write half shut behind the remote |
| SessionCorners.EndIsPassedOn | src/tcp_forwarder.rs:1329-1338 | in relay, once the client has ended and nothing waits for the remote, the remote's write half is shut |
| SessionCorners.EofWhileConnectingCuts | src/tcp_forwarder.rs:1350-1360 | a concrete run in which the end of the client's stream cuts off a byte sent before it |
| SessionCorners.EarlyByteOvertakesReply | src/tcp_forwarder.rs:1230-1301 | a concrete run in which a byte of the remote reaches the client before the reply to its request |
| SessionCorners.EarlyEofDropsReply | src/tcp_forwarder.rs:1235-1242 | a concrete run in which a session in relay is listed as closed by its remote with its reply still queued |
| SessionEvents.ClientEventWrites | src/tcp_forwarder.rs:1385-1389 | in every phase an event on the client writes to it exactly what its socket takes of what was queued before the event |
| SessionEvents.ClientEventDrains | src/tcp_forwarder.rs:1385-1389 | so a client that takes something at every write, often enough, has been sent all it was told, during the handshake too |
| SessionEvents.RemoteEventWrites | src/tcp_forwarder.rs:1314-1328 | an event on the remote writes to it exactly what the socket takes of what is queued, with the client's buffer behind it when the connection has just been made, and nothing while there is no connection |
| SessionEvents.RemoteEventDecides | src/tcp_forwarder.rs:1256-1319 | the first writable event on a connecting remote decides the connection, by its error and for its protocol; nothing else does, and no event on the remote reads the client or writes to it |
| SessionEvents.ClientEndIsSeen | src/tcp_forwarder.rs:1350-1360 | the end of the client's stream is noted exactly when an event on the client reads it; such an event notes nothing of the remote |
| SessionEvents.RemoteEndIsSeen | src/tcp_forwarder.rs:1235-1242 | the same for the remote's |
| SessionEvents.ListedExactly | src/tcp_forwarder.rs:1228-1597 | an event lists its session for closing if and only if it is one of those that should: each failed read and write, each end of stream with nothing left to send, each closing session flushed, both sides done, each refusal without a reply |
| SessionEvents.VerdictsMean | src/tcp_forwarder.rs:1262-1302 | the bytes of the replies on a connection: 05 00 or 05 05 with an address for SOCKS5; a head with status 200 for a tunnel, nothing for a forwarded request, and status 502 without content for both |
| ProxySession.ReadRemoteLoop | src/tcp_forwarder.rs:1230-1255 | the read loop does to the session what the specified reading does, and lists it for closing as often as the code does |
| ProxySession.OnRemoteEvent | src/tcp_forwarder.rs:1228-1343 | the handler of a remote's event does what the specified event does |
| ProxySession.ReadClientLoop | src/tcp_forwarder.rs:1346-1383 | the read loop of the client does what the specified reading does |
| ProxySession.WriteToClient | src/tcp_forwarder.rs:1385-1404 | the writable half of the client's event does what is specified |
| ProxySession.ShakeLoop | src/tcp_forwarder.rs:1406-1583 | the state loop ends and does what the specified handshake does |
| ProxySession.OnClientEvent | src/tcp_forwarder.rs:1344-1597 | the handler of a client's event does what the specified event does |
| ProxyServer.LinkedDial | src/tcp_forwarder.rs:1443-1453 | giving a session the next token for its remote keeps remote tokens and sessions pointing at each other, all tokens different and given out |
| ProxyServer.LinkedDrop | src/tcp_forwarder.rs:1139-1145 | closing a session takes its remote's token with it and keeps the rest linked |
| ProxyServer.ShakeTakesToken | src/tcp_forwarder.rs:1443-1453 | a session gets a remote token once, and it is the one offered |
| ProxyServer.EnteredAreNew | src/tcp_forwarder.rs:1195-1217 | accepting puts new sessions under the next tokens and changes nothing else |
| ProxyServer.EnteredCount | src/tcp_forwarder.rs:1195-1217 | of the allowed arrivals, exactly as many are accepted as there is room for |
| ProxyServer.HandledServes | src/tcp_forwarder.rs:1222-1228 | an event for a token is appended to what the session with that token was served, as an event of the client or of the remote; other sessions keep their records |
| ProxyServer.StepsCompose | src/tcp_forwarder.rs:1189-1598 | the steps of a batch are taken one after the other |
| ProxyServer.TurnsCompose | src/tcp_forwarder.rs:1183-1609 | so are the turns, each with its closing at the end |
| ProxyServer.Server.Handle | src/tcp_forwarder.rs:1222-1597 | every session that was there is there, and heard exactly one more event if the token is one of its two, and none otherwise; a connection it starts is linked |
| ProxyServer.Server.AcceptLoop | src/tcp_forwarder.rs:1195-1217 | connections that are not allowed or beyond the quota are passed over; the others, exactly as many as there is room for, get new records under the next tokens; every other session keeps its record |
| ProxyServer.Server.CloseSession | src/tcp_forwarder.rs:1133-1168 | a session goes with its remote token; closing one that is gone changes nothing |
| ProxyServer.Server.CloseListed | src/tcp_forwarder.rs:1600-1607 | at the end of a turn a session is there if and only if it was there and is not on the list, however often; the records of those that stay are unchanged, and exactly the remote tokens of the listed are gone |
| ProxyServer.Server.TakeSteps | src/tcp_forwarder.rs:1189-1598 | over a batch every session hears exactly the events reported for its two tokens, in order |
| ProxyServer.Server.Turn | src/tcp_forwarder.rs:1183-1609 | so it does over a turn; then it is still there if and only if what it heard does not list it, with the record that its run of events leads to; remote tokens map to the sessions that hold them, no token is both, and the quota holds |
| ProxyServer.Server.Listen | src/tcp_forwarder.rs:1183-1609 | the same over every run of turns |
| ForwardPair.ReadReadyKeeps | src/tcp_forwarder.rs:535-703 | the read loop keeps the pair in order: integrity, counters, interest, half-close |
| ForwardPair.TakeEofKeeps | src/tcp_forwarder.rs:545-590 | so does an end of stream, at once or deferred |
| ForwardPair.TakeDataKeeps | src/tcp_forwarder.rs:602-679 | so do bytes, with the choice of a target if there is none yet |
| ForwardPair.AfterWriteKeeps | src/tcp_forwarder.rs:710-831 | so does the write loop, in each way it can end |
| ForwardPair.PushConserves | src/tcp_forwarder.rs:712-799 | bytes written and chunks left are the chunks that waited, and nothing is left exactly when the loop ends empty |
| ForwardRuns.StreamIntegrity | src/tcp_forwarder.rs:602-679 | on every run and in each direction, bytes read are bytes written followed by the chunks that wait, and the counter is their length while any wait; of a pair that is gone, what was written is a prefix of what was read |
| ForwardRuns.NeverStuck | src/tcp_forwarder.rs:738-770 | on all runs a socket is watched for writing exactly when chunks wait for it, and for reading exactly while less than the threshold, or nothing, waits for its peer, if and only if the threshold is not zero |
| ForwardRuns.NoRoomStarves | src/tcp_forwarder.rs:648-677 | with a threshold of zero, on every run a socket that was read once is never watched for reading again |
| ForwardRuns.PassedOnUnread | src/tcp_forwarder.rs:648-770 | a concrete run with that threshold after which nothing waits and the client is not watched for reading |
| ForwardRuns.HalfClose | src/tcp_forwarder.rs:771-797 | a write half is shut only after the peer's end of stream and behind all of its bytes, at once when that end is known and nothing waits; both halves are shut exactly when the pair is finished |
| ForwardRuns.EndIsSeenFirst | src/tcp_forwarder.rs:541-545 | an end of stream is acted on if and only if it is the first thing an event reads |
| ForwardRuns.EndsOnlyWhenDone | src/tcp_forwarder.rs:538-703 | without I/O errors a pair goes away only when both directions are drained and shut, or, before a target was chosen, when nothing was read or no target is to be had for the first bytes |
| ForwardRuns.ReadsAll | src/tcp_forwarder.rs:538-702 | an event reads all that is there, once |
| ForwardRouting.FirstBytesChoose | src/tcp_forwarder.rs:605-647 | the first bytes of a client open a connection to the address that the rules choose for them, and wait for it; if they choose none, or it cannot be reached, the pair ends |
| ForwardRouting.RunIsRouted | src/tcp_forwarder.rs:426-834 | on every run a live client is connected to the single target, if there is one, and otherwise to the one chosen for its first bytes, from those bytes on and to no other; a pair ends for want of a target only if none is chosen or it cannot be reached |
| ForwardRuns.EventMoves | src/tcp_forwarder.rs:535-752 | an event reads all that is there and then, unless the reading ended the pair, writes exactly what the socket takes of what waited |
| ForwardRuns.ErrorsEnd | src/tcp_forwarder.rs:682-828 | a read that fails ends the pair as broken, and so does a write that fails |
| ForwardRuns.PushOne | src/tcp_forwarder.rs:712-752 | one write takes the front chunk, or the part of it that the socket takes, and the rest of that chunk stays in front |
| ForwardRuns.PushStops | src/tcp_forwarder.rs:800-828 | nothing is written behind a write that blocks or fails, and a failure is noted |
| ForwardRuns.PushSplits | src/tcp_forwarder.rs:712-799 | behind writes that take whole chunks the loop goes on with the chunks that are left |
| ForwardRuns.PushDrains | src/tcp_forwarder.rs:712-799 | a socket that takes whole chunks, often enough, is given everything that waits |
| ForwardRelay.PushChunks | src/tcp_forwarder.rs:710-752 | the write loop, chunk by chunk, computes what the specified run of writes does |
| ForwardRelay.Relay.SetReadable | src/tcp_forwarder.rs:40-60 | a socket is watched for reading besides what it was watched for; no other is touched |
| ForwardRelay.Relay.SetWritable | src/tcp_forwarder.rs:61-81 | the same for writing |
| ForwardRelay.Relay.ClearReadable | src/tcp_forwarder.rs:82-103 | a socket is not watched for reading any more, and is forgotten when that was all; the unwrap of an empty rest never happens |
| ForwardRelay.Relay.ClearWritable | src/tcp_forwarder.rs:104-125 | the same for writing |
| ForwardRelay.Relay.RemoveConn | src/tcp_forwarder.rs:364-424 | both sockets of a pair leave every table; no other pair changes |
| ForwardRelay.Relay.OnEof | src/tcp_forwarder.rs:545-590 | an end of stream changes the seven tables as the pair model says, and no other pair |
| ForwardRelay.Relay.OnData | src/tcp_forwarder.rs:602-679 | so do bytes, including the connection to a target chosen from them |
| ForwardRelay.Relay.ReadLoop | src/tcp_forwarder.rs:535-703 | so does the read loop, which reads on behind the removal of a pair that finds no target; it leaves a socket without a client behind if and only if a later chunk of the event then has a target |
| ForwardRelay.Relay.WriteLoop | src/tcp_forwarder.rs:705-832 | so does the write loop; the subtraction from the counter never goes below zero |
| ForwardRelay.Relay.OnEvent | src/tcp_forwarder.rs:514-833 | an event for a socket that is there does to its pair exactly what the pair model says, and to no other pair anything; one for a token that is not in use changes nothing; one for a socket without its client fails, and no other |
| ForwardRelay.Relay.AcceptLoop | src/tcp_forwarder.rs:444-511 | accepting stops at the quota, passes over addresses that are not allowed, and spends two tokens a client even when the single target is not there |
| ForwardRelay.LetInExactly | src/tcp_forwarder.rs:444-511 | the allowed arrivals are accepted in order while there is room, two tokens each, with a new pair each unless the single target is not there |
| ForwardRelay.AllTurnedTrails | src/tcp_forwarder.rs:426-834 | over every run each pair is served exactly the events for its two sockets that found the socket there, in order |
| ForwardRelay.TurnsCompose | src/tcp_forwarder.rs:426-834 | turns are taken one after the other |
| ForwardRelay.Relay.Listen | src/tcp_forwarder.rs:426-834 | so it is of the loop: each pair in its tables is the run of exactly those events, and the quota holds; the run fails if and only if an event comes for a socket without its client |
| ForwardRelay.LaterChunkStrands | src/tcp_forwarder.rs:612-680 | a concrete run in which that happens: a client's first chunk has no target and its second has, in one event |
| ForwardRelay.Relay.EveryPairIsIntact | src/tcp_forwarder.rs:426-834 | so every pair the loop ever accepted has the integrity, half-close and wake-up properties of runs |
| ForwardRelay.Relay.EveryPairIsRouted | src/tcp_forwarder.rs:426-834 | so it is in the loop's tables: the address that a target's socket is connected to is the one its client is to have |
| UdpTables.Outdated | src/udp_forwarder.rs:115-117 | exactly the stamps below the limit, in ascending order, each with the session the index has for it |
| UdpTables.SendAllConserves | src/udp_forwarder.rs:288-336 | unless the session is marked, what was sent and what is left is the queue; the target once chosen stays, and is chosen from the front of the queue |
| UdpTables.SendAllExactly | src/udp_forwarder.rs:288-336 | the datagrams before the first send that does not go well are sent, in order, to one target; that one is given up if its sending fails and stays if it would block; without a target the first is given up |
| UdpTables.SentFlow | src/udp_forwarder.rs:288-336 | sending keeps a flow in order and to one target |
| UdpTables.SendQueue | src/udp_forwarder.rs:288-336 | the send loop of a session computes what is specified |
| UdpTables.SendReplies | src/udp_forwarder.rs:217-234 | the loop that sends replies back computes what is specified |
| UdpTables.SendBackLoses | src/udp_forwarder.rs:217-234 | no reply is lost if and only if every one in the queue can be sent there and then |
| UdpTables.SendBackExactly | src/udp_forwarder.rs:217-234 | the replies before the first that would block are sent or lost as their sends go, that one is lost, and the rest stay |
| UdpTables.PayloadsCompose | src/udp_forwarder.rs:244-279 | a receive loop of a session passes over empty datagrams, takes all others in order and ends where receiving would block or fails |
| UdpMachine.AgreeWithout | src/udp_forwarder.rs:118-127 | removing any set of sessions keeps all tables in agreement |
| UdpMachine.AgreeJoined | src/udp_forwarder.rs:158-191 | so does a new session |
| UdpMachine.AgreeQueued | src/udp_forwarder.rs:193-205 | so does a datagram that joins a queue, and it keeps the flow in order |
| UdpMachine.AgreeSent | src/udp_forwarder.rs:280-348 | so does a run of sends |
| UdpMachine.AgreeStamped | src/udp_forwarder.rs:337-343 | so does a new stamp, even one in use: each session keeps one stamp, and what the index of stamps says is so |
| UdpMachine.StampedTimesMeans | src/udp_forwarder.rs:263-267 | however many replies one event reads, the session ends with one stamp, the last, and nothing else changed |
| UdpMachine.SweepGoes | src/udp_forwarder.rs:118-127 | the list of marked and outdated sessions can be worked off if and only if the marked ones have distinct stamps, all in the index and none outdated |
| UdpSteps.DatagramJoins | src/udp_forwarder.rs:151-205 | a datagram of a client that is turned away changes nothing; any other joins the end of its client's queue, for the session it had, or a new one with the next token and the present as stamp; the queues of all other clients are unchanged |
| UdpSteps.ScriptJoins | src/udp_forwarder.rs:147-214 | over the receive loop each client that then has a session got exactly its own datagrams of the script, in order, if it is allowed; one that has none sent nothing that is allowed, or there is no room |
| UdpSteps.ListenerEvent | src/udp_forwarder.rs:146-240 | so it is of an event of the listener, which also sends of the waiting replies what the socket takes, and counts them as sent |
| UdpSteps.HearsExactly | src/udp_forwarder.rs:244-279 | every reply that is not empty joins the queue for the session's client, in order; the session has the stamp of the last; an error marks it; no other session changes |
| UdpSteps.SendsExactly | src/udp_forwarder.rs:280-348 | queue, target, flow and mark are those of the run of sends; a session that sent any bytes is stamped; no other session changes |
| UdpSteps.SessionEvent | src/udp_forwarder.rs:241-352 | an event of a session's socket reads if it is readable, then writes if it is writable, then marks the session if it is reported in error |
| UdpSteps.SweptExactly | src/udp_forwarder.rs:105-128 | a turn starts with exactly the sessions that were neither marked nor had a stamp in the index older than the lifespan; the tables say of them what they did before |
| UdpSteps.EventsCompose | src/udp_forwarder.rs:130-352 | events are served one after the other |
| UdpSteps.TurnsCompose | src/udp_forwarder.rs:105-354 | so are turns |
| UdpRuns.StampNeedsFreeTime | src/udp_forwarder.rs:263-267 | a session's new stamp leaves every session in the index of stamps if and only if no other session has it |
| UdpRuns.JoinNeedsFreeTime | src/udp_forwarder.rs:180-182 | the same for a new session |
| UdpRuns.EventsKeepStamps | src/udp_forwarder.rs:146-352 | every list of events that can be served leaves the index knowing every session if and only if every stamp in use is below the time the events start from, or there is at most one session and no room for another |
| UdpRuns.TurnKeepsStamps | src/udp_forwarder.rs:105-354 | the same for a whole turn, whatever the clock reads, with the stamps left by its sweep and the larger of the clock and the smallest stamp in use before it |
| UdpRuns.StampsCollide | src/udp_forwarder.rs:146-279 | otherwise, with room, one new client and enough replies to it give out a stamp for the second time |
| UdpRuns.OthersCollide | src/udp_forwarder.rs:241-279 | and so do enough replies to any session but the one that has it |
| UdpRuns.StaleClockCollides | src/udp_forwarder.rs:106-114 | a concrete run: two clients, and a clock that reads no more at the second turn than at the first |
| UdpRuns.AllTurnedKeeps | src/udp_forwarder.rs:105-354 | every run of turns keeps all tables in agreement, whatever the clock reads |
| UdpBatches.BatchIsFine | src/udp_forwarder.rs:130-352 | a batch as one poll reports it, no socket twice and each only for what it was watched for then, is served without failing if and only if receiving at the listener goes well: the assertion on waiting replies and the unwraps of socket and queue entry hold for every event, whatever was served before it |
| UdpBatches.OnlySweepsFail | src/udp_forwarder.rs:105-354 | a run of such batches fails only where a sweep cannot be made or receiving at the listener fails |
| UdpBatches.SessionsAgree | src/udp_forwarder.rs:76-85 | after every run of turns: addresses and sessions mirror each other, a socket is watched for writing exactly while it has a queue entry, order and one target unless marked, and whatever the poll reports next is served without failing; stamps and sessions mirror each other if stamps could not collide in any turn |
| UdpBatches.OneReasonOnly | src/udp_forwarder.rs:115-352 | after a batch the next sweep can be made if and only if every session was given at most one reason to be closed, failing to receive, failing to send or an error reported, and none of those is outdated by then |
| UdpBatches.SweepOfMarked | src/udp_forwarder.rs:118-127 | while every session is in the index, a sweep can be made if and only if no session is marked twice and no marked one is outdated |
| UdpRuns.MarkedThenOutdated | src/udp_forwarder.rs:115-128 | a concrete run of two turns after which the third cannot start: sending fails just before the lifespan has passed, and the session is then both marked and outdated |
| UdpForwarder.Forwarder.StartTurn | src/udp_forwarder.rs:106-114 | whatever the clock reads, the turn starts at the larger of the clock and the smallest stamp in use |
| UdpForwarder.Forwarder.Sweep | src/udp_forwarder.rs:115-128 | the sweep succeeds if and only if the marked sessions have distinct stamps, all in the index and none outdated, and then closes exactly the marked and the outdated ones |
| UdpForwarder.Forwarder.OnDatagram | src/udp_forwarder.rs:151-205 | a datagram of a client that is turned away changes nothing; any other joins its client's queue, with a new session if there is none; no other client's queue changes |
| UdpForwarder.Forwarder.ListenerRead | src/udp_forwarder.rs:147-214 | the receive loop gives every client's session exactly that client's datagrams, in order, and fails only on a socket error |
| UdpForwarder.Forwarder.ListenerWrite | src/udp_forwarder.rs:215-239 | the waiting replies are sent in order, as far as the socket takes them, and the listener is watched for writing exactly while one is left |
| UdpForwarder.Forwarder.SessionRead | src/udp_forwarder.rs:244-279 | each non-empty reply joins the queue of replies for the session's client, in order, and moves its stamp; an error marks the session |
| UdpForwarder.Forwarder.SessionWrite | src/udp_forwarder.rs:280-348 | the session's queue, target, flow, stamp and mark are what the specified sends make of them |
| UdpForwarder.Forwarder.OnSession | src/udp_forwarder.rs:241-352 | an event of a session's socket does what is specified; it fails if and only if the socket is reported writable without a queue entry |
| UdpForwarder.Forwarder.OnListener | src/udp_forwarder.rs:146-240 | so does an event of the listener; it fails if and only if receiving does, or it is reported writable with no reply waiting |
| UdpForwarder.Forwarder.Turn | src/udp_forwarder.rs:105-354 | whatever the clock reads and the poll reports, a turn does what the specified turn does and keeps the tables valid; it succeeds if and only if the sweep can be made and every event is fine when its time comes |
| UdpForwarder.Forwarder.Listen | src/udp_forwarder.rs:105-354 | the same over every run of turns and clock readings; it succeeds if and only if every turn does |

## Left out

- Polling, real sockets, accept, DNS and logging: replaced by scripts, oracles and a record of what each socket is watched for.
- Errors of the poll itself, of registration and of `take_error`, which end the whole loop in the code.
- How the poll finds out what to report: any events may come, and `UdpBatches.Polled` says which of them a poll can report.
- An attempt to connect to one address, or to look up one name, always has the same outcome.
- `Socks5Session` as an object: its record is a value that the handlers change as a local variable and the server puts back into its table, so aliasing between handler and table is not modelled; its fields, and the order of the handlers' steps, are.
- The text of close reasons: kinds instead; the target label is kept, log lines are not.
- The entries of a socket without its client in the forwarder's tables, which nothing looks at before the failure at its next event: its token is kept instead.
- Byte counters and the read counter are unbounded numbers, without the wrap-around of 64 or 32 bits.
- The global byte totals of forward mode, which are only logged.
- HTTP heads are octets: white space is the ASCII white space of the language's splitting functions, and slices at character boundaries inside multi-byte text are not modelled.
- IPv6 flow labels and scope identifiers of socket addresses.
- Truncation of datagrams at 64 KiB, and partial sends of a datagram: one counts as sent, as in the code.
- The wrap-around of src/udp_forwarder.rs:115 in a build without overflow checks, for clocks less than three minutes after the epoch: a turn fails then.
- Regular expressions, target rules and address rules: `decideTarget` and `testipaddr` are fixed functions.
- Single-pattern checks of `connection_plugin.rs` other than the substring search, configuration, the command line and thread start: they hold no state that outlives a call.
- The test-only duplicates at src/tcp_forwarder.rs:127-216.
- Bounds on memory: reading runs until it would block, so the pause threshold bounds nothing; and half-open sessions are not claimed to be reaped.
- ForwardRuns.EndIsSeenFirst: an end of stream left alone is seen again only if its socket is reported once more, which depends on the poll.
