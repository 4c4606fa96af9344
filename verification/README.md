# A verified model of vlgr

vlgr multiplexes HTTP exchanges, WebSocket, raw TCP and TLS-passthrough connections over one
ordered link between a relay server and a client. This project models that core in Dafny and
proves what it keeps, over every input and every run. `dafny verify dfyconfig.toml` checks all
of it.

| file | what it models |
|---|---|
| `Link`, `TcpRelay`, `TcpComplete`, `TcpReturn`, `TcpRuns`, `TcpHappens`, `TcpEnds` | one relayed connection as a two-party protocol over two FIFO links: every goroutine step, frame-loop step, timeout and failure on both sides |
| `HttpExchange`, `HttpComplete`, `HttpRuns`, `HttpHappens`, `HttpEnds` | one HTTP exchange with a streamed upload, a streamed response, or both |
| `WsRelay`, `WsComplete`, `WsRuns`, `WsHappens`, `WsEnds` | one upgraded (WebSocket) connection |
| `Mux`, `MuxTables`, `MuxHappens`, `Tables` | any number of such streams with any IDs sharing the two links, and the client's tables, which learn an ID's kind from its opening frame |
| `Bounds` | what no step of a connection or an exchange ever does: go back, overfill, or send what its receiver would refuse |
| `StreamTables`, `BodyReader` | the tables and the body reader behind the stream frames, updated in place |
| `Book`, `Ownership`, `Conservation`, `PortConservation`, `OwnershipHappens`, `Handlers`, `PortAllocator` | who owns which name and which public port, for any number of clients and SSH connections |
| `Agreement`, `AgreementHappens`, `ForwardList` | adding and removing forwards on a live connection |
| `HttpCodec`, `HttpWire`, `FrameCodec`, `BigEndian`, `Layout` | the wire format: pure parser and printer, the buffer and reader code that computes them, and the documented layouts |
| `ClientHello`, `Peek`, `Subdomain` | the TLS ClientHello parser, the incremental peek and routing by name |
| `Version`, `ClientIp`, `Text`, `Basics` | release tags, forwarded addresses, and shared text and sequence facts |

How the machines are built. A state holds both sides of a stream and histories of the bytes
read, sent, handled and written. A step is what one goroutine does between two lock or channel
operations; a step that receives takes the head of its link. The histories balance in every state:
each byte read is written, in hand, queued, on the link, left over by a failed write, given up or
unsent (`TcpRelay.InwardAccount`, `WsRelay.InwardAccount`, `HttpExchange.ReplyAccount` and their partners),
and the exact conditions for whole delivery come from these accounts. Timeouts, failures and the
choices of peers and of the local application are step parameters, so a run is any
interleaving. `clean` and the like are history variables: `TcpRuns`, `WsRuns` and `HttpRuns` restate
the conditional results on runs in terms of the steps taken. That there are such runs is proved too:
any connection and any exchange, with bytes of any number in either direction, can be run to its end
without a fault (`TcpHappens.DeliveryHappens`, `HttpHappens.ExchangeHappens`, `WsHappens.BytesArrive`), and
any traffic made of them is served by one run of the multiplexer (`MuxHappens.AnyTraffic`); and from
wherever a run has got to, both sides can end without anybody's help (`TcpEnds.AlwaysEnds`,
`HttpEnds.AlwaysEnds`, `WsEnds.AlwaysEnds`, `OwnershipHappens.ClientEnds`). `MuxTables.HeadCanBeTaken` shows
that no frame ever blocks a link. So the safety results are neither about stuck runs nor about none.

Where the obvious claim is false, the code is kept as it is, a concrete run or input shows the
failure, and the condition under which the claim holds is proved:

- a relayed connection whose steps do not fail loses what the client handles while the relay is not
  live, as when the local side hangs up first, and nothing else (`TcpRuns.HangUpLosesData`,
  `TcpRuns.DeliveredIff`); on the way back it loses what the drain leaves in its queue or the frame
  loop gives up, and nothing else (`TcpRuns.PublicEndLosesAnswer`, `TcpRuns.ReturnedIff`);
- an upgraded connection loses what comes before its registration, after its end or with the read
  that ends a stream, and nothing else (`WsRuns.EarlyBytesAreLost`, `WsRuns.ArrivesIff`,
  `WsRuns.ReturnsIff`);
- a relay leaves the client's table after the server's close, but an upgraded connection does not when
  that close came before its registration, until its own goroutine ends (`TcpRuns.RelayLeaves`,
  `WsRuns.RelayStaysListed`, `WsRuns.StaysListedIff`);
- an application that has not answered yet has read an upload whole if and only if its stream was
  registered before the first data frame and no read of the viewer's body failed (`HttpRuns.EarlyChunkIsLost`, `HttpRuns.UploadIff`);
- a close frame ends or aborts, in both directions, so a response is whole if and only if no read of
  it failed and no chunk was read after a cancel, which only a stalled upload can bring about
  (`HttpRuns.CloseIsAmbiguous`, `HttpRuns.UploadCloseIsAmbiguous`, `HttpRuns.LateUploadEndCutsResponse`,
  `HttpRuns.ResponseIff`); a lost link looks like an end too, and so does the server's own close to an
  application that answers before it has read its upload (`HttpRuns.LostLinkLooksLikeEnd`,
  `HttpHappens.EarlyAnswerCutsUpload`);
- the length of a server_name list is ignored, which never matters if and only if the list holds a
  name (`ClientHelloParser.NameBeyondTheList`, `ClientHelloParser.ListLengthIff`);
- round trips of headers need exactly the limits the decoder enforces (`HttpCodec.RequestRoundTrip`);
- registry entries and holdings agree if and only if no frame is handled after cleanup
  (`Conservation.OwnedIff`);
- public ports are conserved if and only if, besides, the longest address fits its announcement
  (`PortConservation.ConservedIff`, `PortConservation.CleanupFreesForward`);
- client and server agree on the forwards if and only if no operation can time out
  (`Agreement.AgreeIff`, `Agreement.LateReply`, `Agreement.LateRemoval`);
- a forwarded address is beyond a client's influence if and only if no hop is trusted or the
  proxies supplied all their entries (`ClientIp.BeyondInfluenceIff`).

Where documentation and code differ the model follows the code. The project's README.md (line
191) describes a header as a name and a value; the code writes a count and then that many
values (internal/protocol/protocol.go:166). The comment on `newer` promises a fallback to plain
inequality (internal/selfupdate/selfupdate.go:284); the code treats an unparseable latest tag
as not newer. The comment in serveWebSocket says that a refused upgrade's response is relayed as it
is (internal/server/proxy.go:207); the client sends it without its body
(internal/client/tunnel.go:1020-1030).

## Model

| member | source | states |
|---|---|---|
| `Link.NoGaps` | internal/server/handler.go:572-615 | in every run of a pending entry's steps its consumer has received a prefix of the payloads processed for the ID, what follows it waits or was given up, and a listed ID has given up nothing and has open channels |
| `Link.NothingAfterUnlisting` | internal/server/handler.go:577-595 | once an ID is out of the table no later payload is ever queued: what can still be received is what the queue holds |
| `Link.Lookup` | internal/server/handler.go:573-579 | finding the entry, or not, keeps the entry's accounts |
| `Link.Enqueue` | internal/server/handler.go:588-588 | queueing a payload keeps the entry's accounts |
| `Link.Drop` | internal/server/handler.go:582-589 | a payload is dropped only for an entry that is done or closed, which keeps the accounts |
| `Link.Stall` | internal/server/handler.go:590-595 | the send timeout unlists and closes in one go, so nothing after the lost chunk can be queued |
| `Link.PeerClose` | internal/server/handler.go:599-615 | the peer's close keeps the accounts |
| `Link.Take` | internal/server/proxy.go:174-174 | the consumer receives the oldest chunk |
| `TcpRelay.StepKeeps` | internal/server/handler.go:450-530 | every step of either side keeps the relay's invariant, on the links as the step leaves them |
| `TcpRelay.Promises` | internal/client/tunnel.go:1084-1151 | bytes written to the local connection are a prefix of the peeked and read ones, bytes written to the public one a prefix of the locally read ones; no data frame is handled before the relay is registered unless a close was sent |
| `TcpRelay.DataKeeps` | internal/client/tunnel.go:424-443 | a data frame for a live relay is the next part of what was sent |
| `TcpRelay.InwardAccount` | internal/client/tunnel.go:424-443 | in every state each byte peeked or read is, in order, written, in hand, left over by a failed write, handled while the relay was not live, on the link or unsent |
| `TcpRelay.OutwardAccount` | internal/server/handler.go:489-511 | in every state each byte read from the local connection is, in order, written, left over by a failed write, queued, in hand, given up, on the link or unsent |
| `TcpRelay.HandleOne` | internal/client/tunnel.go:424-435 | a handled payload is the next to be written, or missed the relay |
| `TcpComplete.StepGood` | internal/server/handler.go:474-529 | in a run without failures the only close on the link is the pump's own and nothing follows it |
| `TcpComplete.DeliveredIff` | internal/client/tunnel.go:424-435 | without failure a finished relay with a drained link is short of exactly what was handled while it was not live: everything arrived if and only if that is nothing |
| `TcpComplete.DeliveredWhole` | internal/server/handler.go:482-529 | without failure or early hang-up, a finished relay with a drained link has delivered exactly the prefix and everything read |
| `TcpComplete.LeavesTable` | internal/client/tunnel.go:468-480 | without failure a finished relay is out of the client's table once its close was handled, and in any case once the client's goroutine is over |
| `TcpReturn.StepGood` | internal/client/tunnel.go:1120-1150 | in a run without failures nothing follows the client's close, and a closed entry has received everything sent |
| `TcpReturn.ReturnedIff` | internal/server/handler.go:489-511 | without failure and with nothing under way the public side is short of exactly what is left in the queue, what the frame loop gave up and what came with the failing read |
| `TcpReturn.ReturnedWhole` | internal/server/handler.go:489-511 | without failure, a drain that stopped at the end of its stream has written what was read from the local connection but for what came with the failing read |
| `TcpRuns.SmoothReturn` | internal/server/handler.go:489-511 | over whole runs: in a smooth run a stopped drain has written exactly what was read from the local connection |
| `TcpHappens.DeliveryHappens` | internal/server/handler.go:450-530 | any peeked prefix, any bytes after it and any answer: a run, smooth both ways, to the end of both sides with everything written |
| `TcpEnds.AlwaysEnds` | internal/server/handler.go:462-529 | wherever a run has got to, when the link is lost and nothing succeeds any more, the goroutines of both sides come to their end and the ID is in no table |
| `TcpEnds.StallTellsBoth` | internal/server/handler.go:590-595 | a drain that does not keep up ends the stream on both sides: the entry goes, the queue can still be taken, the client is told |
| `TcpEnds.RefusalReleases` | internal/client/tunnel.go:1084-1107 | a client that refuses a connection says so, and that releases the waiting relay at once, with its stream over and nothing written |
| `TcpEnds.LateReadyIgnored` | internal/server/handler.go:427-434 | once an entry is out of the table no readiness releases its relay |
| `TcpRuns.SmoothDelivery` | internal/server/handler.go:450-530 | over whole runs: in a smooth run no data misses the relay, so a finished and drained one has delivered everything |
| `TcpRuns.DeliveredIff` | internal/client/tunnel.go:424-435 | over whole runs without a faulty step: a finished and drained relay has delivered everything if and only if no data frame with bytes was handled while the relay was not live |
| `TcpRuns.ReturnedIff` | internal/server/handler.go:489-511 | over whole runs without a faulty step: with nothing under way everything came back if and only if the queue holds no bytes and no step gave bytes up |
| `TcpRuns.RelayLeaves` | internal/client/tunnel.go:468-480 | over whole runs without a faulty step: a finished relay whose close was handled is out of the client's table |
| `TcpRuns.HangUpLosesData` | internal/client/tunnel.go:424-435 | a run without failures in which the local side hangs up first and the data is lost |
| `TcpRuns.PublicEndLosesAnswer` | internal/server/handler.go:462-509 | a run without failures in which the public side ends first and the drain drops the queued answer |
| `HttpExchange.StepKeeps` | internal/client/tunnel.go:798-958 | every step of an exchange on either side keeps its invariant |
| `HttpExchange.ViewerPromise` | internal/server/proxy.go:121-189 | the viewer has a prefix of the local body, or of the error text that replaced it; streamed chunks are taken without gaps |
| `HttpExchange.UploadPromise` | internal/client/tunnel.go:445-466 | the local application reads a gapless run of the upload from the first chunk after registration; a clean end leaves nothing queued, an aborted stream ends in an error |
| `HttpExchange.ChannelPromise` | internal/client/tunnel.go:468-504 | no body or cancel channel is closed twice; an ID in a table has open channels |
| `HttpExchange.ClientCloseKeeps` | internal/client/tunnel.go:482-503 | a close acts on the upload's entry first and else on the response's, and keeps the invariant |
| `HttpExchange.PumpReadKeeps` | internal/server/proxy.go:137-159 | each read of the upload pump is sent once, in order, whether it is the last, a failure or neither |
| `HttpExchange.LocalReadKeeps` | internal/client/tunnel.go:929-957 | each read of the response body is sent once, in order, and nothing after a cancel |
| `HttpExchange.ReplyAccount` | internal/server/proxy.go:163-189 | in every state each byte read of the local body is, in order, shown, left over by a failed write, queued, in hand, given up, on the link or unsent |
| `HttpExchange.UploadAccount` | internal/client/tunnel.go:424-466 | in every state each byte read of the upload is, in order, early, read by the local application, waiting for it, in hand, handled after the stream ended, on the link or unsent |
| `HttpComplete.StepGood` | internal/server/proxy.go:102-189 | in a run in which at most reads fail and uploads stall, nothing follows the close of a response; where no upload stalls every close frame is accounted for, so none can cancel a response under way |
| `HttpComplete.CloseCounted` | internal/client/tunnel.go:468-504 | the close that reaches the client while it streams its response belongs to the upload |
| `HttpComplete.ViewerGetsIff` | internal/server/proxy.go:128-189 | where at most reads fail and uploads stall, a finished exchange has shown all that was read if and only if no chunk was read after a cancel, and that is the whole body if and only if no read failed either; only a stalled upload can bring such a chunk about |
| `HttpComplete.ViewerGetsAll` | internal/server/proxy.go:128-189 | hence without failure the viewer of a finished exchange has exactly the local body, inline or streamed |
| `HttpComplete.UploadExact` | internal/server/proxy.go:137-159 | without a stall a reader that saw the end has read exactly the chunks from the first after registration: all that was read of the viewer's body if and only if no chunk was early, and the whole body if and only if no read of it failed |
| `HttpComplete.NotCutShort` | internal/client/tunnel.go:846-863 | an upload is not cut short by the server's own close while the local application has not answered |
| `HttpRuns.ResponseIff` | internal/client/tunnel.go:927-957 | over whole runs in which at most reads fail and uploads stall: a finished exchange has shown all that was read if and only if no step read a chunk after a cancel, and the whole body if and only if no read of it failed either; without a stall no step does |
| `HttpRuns.UploadIff` | internal/server/proxy.go:137-159 | over whole runs in which at most reads fail: an upload read to a clean end is all that was read of the viewer's body if and only if no chunk was early, and the whole body if and only if no read of it failed |
| `HttpRuns.FaultFreeResponse` | internal/server/proxy.go:102-189 | over whole runs without a faulty step: a finished exchange has shown the whole body |
| `HttpRuns.FaultFreeUpload` | internal/client/tunnel.go:819-831 | over whole runs without a faulty step: the viewer's body was read to its end, and the upload is read whole if and only if no chunk came before its stream was registered |
| `HttpHappens.UploadHappens` | internal/client/tunnel.go:819-831 | an upload of any length, registered in time, is read whole by a run without a fault |
| `HttpHappens.ResponseHappens` | internal/server/proxy.go:163-189 | a response of any length, inline or streamed, is shown whole by a run without a fault |
| `HttpHappens.InlineIsShown` | internal/server/proxy.go:128-131 | in every state in which an inline response has arrived, its handler can show all of it in one step, and is then done with the viewer |
| `HttpHappens.ExchangeHappens` | internal/server/proxy.go:102-189 | any upload and any response: a run without a fault to the end of both sides in which both arrive whole and nothing stays listed |
| `HttpHappens.EarlyAnswerCutsUpload` | internal/server/proxy.go:137-159 | a run without a fault in which the local application answers first, and reads what it got of an upload that has not ended as a whole one |
| `HttpRuns.ErrorsAreShown` | internal/client/tunnel.go:798-879 | a refusal, a local failure, the lack of a slot and a response that cannot be encoded are each shown to the viewer as the text that says so |
| `HttpRuns.LostLinkLooksLikeEnd` | internal/server/handler.go:732-756 | a run in which the link is lost in the middle of a response and the server ends it as if it were whole |
| `HttpEnds.AlwaysEnds` | internal/server/handler.go:657-756 | wherever a run has got to, when the link is lost and nothing succeeds any more, the goroutines of both sides come to their end and the ID is in no table |
| `HttpEnds.StallTellsBoth` | internal/server/handler.go:590-595 | a viewer that does not keep up ends the stream on both sides |
| `HttpEnds.LateResponseIgnored` | internal/server/handler.go:537-570 | once an entry is out of the table no response is taken for it |
| `HttpRuns.EarlyChunkIsLost` | internal/client/tunnel.go:367-379 | a run without a faulty step that loses the first chunk of an upload |
| `HttpRuns.LateUploadEndCutsResponse` | internal/client/tunnel.go:457-503 | a run whose only fault is a stalled upload, and whose response is cut by the upload's own end |
| `HttpRuns.CloseIsAmbiguous` | internal/client/tunnel.go:927-957 | two runs with the same server state and viewer bytes, of which one ended and the other failed |
| `HttpRuns.UploadCloseIsAmbiguous` | internal/server/proxy.go:138-157 | two runs with the same client state and bytes read, of which in one the upload ended and in the other the viewer broke off |
| `WsRelay.StepKeeps` | internal/client/tunnel.go:960-1078 | every step of an upgraded connection on either side keeps its invariant |
| `WsRelay.Promises` | internal/server/proxy.go:242-275 | the bytes written locally are a gapless run from the first chunk after registration, a prefix of those read when none was early; the way back is a prefix without a condition |
| `WsRelay.HandleOne` | internal/client/tunnel.go:424-452 | a handled chunk was lost before registration, is the next one to be written, or missed the relay after its end |
| `WsRelay.InwardAccount` | internal/client/tunnel.go:424-443 | in every state each byte read from the viewer is, in order, early, written, in hand, left over by a failed write, handled after the end, on the link or unsent |
| `WsRelay.OutwardAccount` | internal/server/proxy.go:263-272 | the same for the bytes read from the local application |
| `WsRelay.ArrivedIff` | internal/client/tunnel.go:424-443 | with nothing under way everything arrived if and only if nothing was early, left over, late or unsent, faults or not |
| `WsRelay.ReturnedIff` | internal/server/proxy.go:263-272 | with nothing under way everything came back if and only if nothing was left over, queued, given up or unsent, faults or not |
| `WsRelay.LiveIff` | internal/client/tunnel.go:1032-1078 | a live and drained relay has written everything from the first chunk after registration, and all that was read if and only if no byte was early; a live and drained way back has returned everything |
| `WsComplete.StepGood` | internal/server/proxy.go:242-275 | steps without a fault leave nothing over in a write and give nothing up, let nothing follow a close, and keep a relay listed after its close only if the close came early |
| `WsComplete.ReturnedWhole` | internal/server/proxy.go:263-272 | without a fault a stopped drain has written what was read from the local application but for what came with the read that ended it |
| `WsComplete.ListedIff` | internal/client/tunnel.go:468-504 | without a fault, once the server's close was handled, the relay is listed if and only if the close came before registration and the relay's goroutine has not ended |
| `WsRuns.EarlyBytesAreLost` | internal/client/tunnel.go:1020-1039 | a run without faults that loses what came before the relay was registered |
| `WsHappens.BytesArrive` | internal/client/tunnel.go:1020-1078 | any bytes of either side: a run without faults to the end of both sides in which everything arrives |
| `WsEnds.AlwaysEnds` | internal/server/proxy.go:242-280 | wherever a run has got to, faults or not, when the link is lost and nothing succeeds any more, the goroutines of both sides come to their end and the ID is in no table |
| `WsEnds.StallTellsBoth` | internal/server/handler.go:590-595 | a drain that does not keep up ends the stream on both sides |
| `WsEnds.OnlySwitched` | internal/server/proxy.go:206-218 | in every run a connection is taken over only on a switch of protocols |
| `WsEnds.RefusalIsHeard` | internal/server/proxy.go:206-211 | a refusal reaches the handler, which leaves without taking the connection over |
| `WsEnds.LateResponseIgnored` | internal/server/handler.go:537-570 | once an entry is out of the table no response is taken for it |
| `Bounds.TcpRunsForward` | internal/server/handler.go:462-529 | in every run of a connection with a peeked prefix no goroutine goes back, and a data frame carries at most 32 KiB |
| `Bounds.WsRunsForward` | internal/server/proxy.go:206-280 | the same for upgraded connections; the first response is kept, and one that is not decoded is not taken |
| `Bounds.HttpRunsForward` | internal/client/tunnel.go:846-958 | in every run of an exchange no goroutine goes back, bodies of up to 4 MiB and no others are sent inline, the upload's queue holds at most 256 chunks, a data frame carries at most 4 MiB and a byte, the first response is kept, and one that is not decoded is not taken |
| `Bounds.FitsAFrame` | internal/protocol/protocol.go:105-134 | so every data frame is one that its receiver decodes |
| `WsRuns.ArrivesIff` | internal/client/tunnel.go:1020-1039 | over whole runs without a faulty step: with nothing under way everything arrived if and only if no byte was handled while the relay was not live and none came with the read that ended the stream |
| `WsRuns.ReturnsIff` | internal/server/proxy.go:242-275 | over whole runs without a faulty step: a stopped drain has returned everything if and only if no byte came with the read that ended the local stream |
| `WsRuns.StaysListedIff` | internal/client/tunnel.go:468-504 | over whole runs without a faulty step: when a relay whose close was handled is still in the client's table |
| `WsRuns.RelayStaysListed` | internal/client/tunnel.go:468-504 | a run without faults in which the close is dropped before registration and the relay stays listed and live with both links empty |
| `Mux.OfAdvance` | internal/server/handler.go:118-120 | a step of one stream moves that stream's part of a shared link and no other |
| `Mux.EveryIdGood` | internal/server/handler.go:427-674 | in every interleaving of any number of streams every ID keeps the invariant of its kind on its own frames |
| `Mux.EveryRelay` | internal/server/handler.go:450-530 | for every run and every relayed connection: both prefix properties, no early data frame, open channels, and where every byte read on either side is |
| `Mux.EveryRelayWhole` | internal/client/tunnel.go:424-480 | for every run and every relayed connection without failure: exactly when it is delivered whole, either way, and that it leaves the client's table |
| `Mux.EveryResponse` | internal/server/proxy.go:102-189 | for every run and every exchange: the viewer has a prefix, where the rest is, and exactly when a finished exchange has shown it all |
| `Mux.EveryUpload` | internal/client/tunnel.go:424-504 | for every run and every exchange: what is read of the upload, where the rest is, that its body had ended, and exactly when it is all |
| `Mux.EveryChannel` | internal/client/tunnel.go:424-504 | for every run and every exchange: at most one close per channel, open channels for listed IDs |
| `Mux.EveryUpgrade` | internal/client/tunnel.go:1032-1078 | for every run and every upgraded connection: the gapless run and prefix properties, open channels for listed IDs, and where every byte read on either side is |
| `Mux.EveryUpgradeWhole` | internal/client/tunnel.go:1032-1078 | for every run and every upgraded connection with nothing under way: exactly when everything arrived, either way, and what has arrived while the relay is live |
| `Mux.NoStrayFrames` | internal/server/handler.go:620-637 | a request ID on a link belongs to a stream that was started |
| `MuxHappens.AnyTraffic` | internal/server/handler.go:427-674 | any list of connections, exchanges and upgraded connections with any bytes: one run of the multiplexer serves all of it whole and ends with idle loops, empty links and empty tables |
| `MuxTables.OneOpening` | internal/server/handler.go:118-120 | in every run no ID ever carries two kinds of opening frame |
| `MuxTables.OneHandler` | internal/client/tunnel.go:361-377 | in every run at most one handler is spawned for an ID |
| `MuxTables.EntryFollowsFrame` | internal/client/tunnel.go:790-795 | in every run a relay's entry was opened by TCPOpen or an upgrade request and a body stream's or cancel signal's by a plain request, and listed by that frame's handler |
| `MuxTables.TablesDisjoint` | internal/client/tunnel.go:1037-1039 | in every run the relay table shares no ID with the other two |
| `MuxTables.TablesAgree` | internal/client/tunnel.go:424-504 | in every run the tables hold exactly what the stream machines say |
| `MuxTables.HeadCanBeTaken` | internal/client/tunnel.go:361-391 | in every run a free loop can take the head of its link, on either side |
| `MuxTables.BusyCanFinish` | internal/client/tunnel.go:454-465 | a busy loop can always finish |
| `MuxTables.CloseActsOnOne` | internal/client/tunnel.go:468-504 | in every run a close frame adds no entry and takes at most one, whatever its ID |
| `Tables.CloseTakesOne` | internal/client/tunnel.go:468-504 | the lookup in turn takes exactly one entry if the ID is in any table, else none |
| `StreamTables.Tunnel.HandleStreamData` | internal/client/tunnel.go:424-466 | a data frame goes to the relay, else to the body stream, else nowhere; a full queue aborts the stream |
| `StreamTables.Tunnel.HandleStreamClose` | internal/client/tunnel.go:468-504 | a close frame changes the tables as the multiplexer says, acts on at most one entry and closes no channel twice |
| `StreamTables.Tunnel.ListRelay` | internal/client/tunnel.go:1109-1112 | a new relay is listed, whatever else the ID is for |
| `StreamTables.Tunnel.ListBody` | internal/client/tunnel.go:820-824 | a new open body stream is listed |
| `StreamTables.Tunnel.ListCancel` | internal/client/tunnel.go:911-914 | a new open cancel signal is listed |
| `StreamTables.Tunnel.DelistRelay` | internal/client/tunnel.go:1120-1124 | the deferred deletion of a relay closes nothing else |
| `StreamTables.Tunnel.DelistBody` | internal/client/tunnel.go:825-829 | the deferred deletion of a body stream closes nothing |
| `StreamTables.Tunnel.DelistCancel` | internal/client/tunnel.go:915-919 | the deferred deletion of a cancel signal closes nothing |
| `StreamTables.Pending.Add` | internal/server/handler.go:628-636 | an entry is listed with open channels before anything is sent |
| `StreamTables.Pending.RemovePending` | internal/server/handler.go:122-126 | only that ID leaves the table |
| `StreamTables.Pending.HandleTCPReady` | internal/server/handler.go:427-434 | the readiness ack of a listed relay |
| `StreamTables.Pending.HandleHTTPRes` | internal/server/handler.go:537-570 | a response the decoder rejects is dropped, of the others the first is kept, and the entry stays listed |
| `StreamTables.PendingReq.Receive` | internal/server/handler.go:493-493 | the consumer receives the oldest chunk, as the entry's steps say |
| `StreamTables.Pending.HandleStreamData` | internal/server/handler.go:572-597 | a payload is queued for a listed entry or stalls it; the response and the ready signal are left alone |
| `StreamTables.Pending.HandleStreamClose` | internal/server/handler.go:599-615 | the entry leaves the table with its stream closed and its waiting relay released |
| `StreamTables.ReceiveResponse` | internal/server/handler.go:554-615 | a response, any chunks that fit its queue and a close, handled in this order: the response is kept, the chunks wait in order, the stream is closed |
| `BodyReader.BodyStreamReader.Read` | internal/client/tunnel.go:58-76 | one Read hands over and leaves exactly what `Took` says; EOF only after every chunk of a cleanly closed stream, an error for an aborted one |
| `BodyReader.TookConserves` | internal/client/tunnel.go:58-76 | a read loses and reorders nothing, and gives nothing only when nothing is left |
| `BodyReader.ReadsArePrefix` | internal/client/tunnel.go:58-76 | for any chunks and buffer sizes the concatenated reads are a prefix of the chunks |
| `BodyReader.EnoughReads` | internal/client/tunnel.go:58-76 | with non-empty buffers all of it is read |
| `BodyReader.PumpRequestBody` | internal/server/proxy.go:137-159 | the data frames carry exactly the pumped chunks, in order, and the close is the last frame and the only one |
| `BodyReader.PumpedIs` | internal/server/proxy.go:137-159 | the pumped chunks are the head and every non-empty read made before the exchange is over, as far as writing goes |
| `BodyReader.PumpedAllBytes` | internal/server/proxy.go:137-159 | these chunks carry a prefix of the body, and all of it when nothing cuts the pump short |
| `BodyReader.Buffered` | internal/server/proxy.go:44-51 | inline up to the limit; above it the buffered head is one byte longer than the limit |
| `BodyReader.UploadReproduced` | internal/server/proxy.go:137-159 | split, pumped into frames and read back from their data, a body above the limit is reproduced exactly |
| `Conservation.StepKeeps` | internal/server/handler.go:250-423 | when no frame comes after cleanup, every step of any client or SSH connection keeps the names, the counts and the pool in order |
| `Conservation.EntryIffHeld` | internal/server/registry.go:29-55 | in every reachable state a registry entry exists if and only if its handler holds that tunnel, on its way out included |
| `Conservation.OneOwner` | internal/server/registry.go:33-35 | no name has two owners |
| `Conservation.CountIsSum` | internal/server/handler.go:274-288 | the tunnel count is the size of the three tables and at most 20; an unauthenticated client owns nothing |
| `Conservation.CleanupLeavesNothing` | internal/server/handler.go:732-747 | after cleanup neither registry has an entry of the handler |
| `Conservation.OwnURLRoutes` | internal/server/proxy.go:347-368 | in every reachable state the lookup of a tunnel's own URL, with or without port, returns that tunnel |
| `Conservation.LateFrameLeaks` | internal/server/handler.go:173-205 | when one may, a run ends with an entry of a finished handler that no cleanup gives back |
| `Conservation.OwnedIff` | internal/server/handler.go:173-205 | entries and holdings agree in all reachable states if and only if no frame is handled after cleanup, or no name fits at all |
| `OwnershipHappens.RegisterThenUnregister` | internal/server/handler.go:250-313 | a granted name is recorded in the registry and in its client's table, and unregistering it restores both |
| `OwnershipHappens.TlsRegisters` | internal/server/handler.go:315-362 | a granted TLS name is recorded in the TLS registry and in its client's table |
| `OwnershipHappens.PortIsGranted` | internal/server/handler.go:364-425 | a TCP request gets the port it asks for if that is free, or any free one, if its address fits; the port is used and in its client's table |
| `OwnershipHappens.ForwardThenCancel` | internal/sshtun/server.go:171-214 | an SSH forward of a free port is granted, and cancelling it restores everything |
| `OwnershipHappens.ConnectionEnds` | internal/sshtun/server.go:148-169 | whatever an SSH connection was doing, its end gives back every port it held |
| `OwnershipHappens.ClientEnds` | internal/server/handler.go:732-761 | whatever a client was doing when it left, its handler can finish and clean up, and no name in either registry is then the client's |
| `PortConservation.StepPorts` | internal/server/handler.go:387-417 | when every address fits, every step keeps the ports in use equal to the ports held |
| `PortConservation.SshListenPorts` | internal/sshtun/server.go:171-200 | an SSH forward keeps the port it was granted or returns it |
| `PortConservation.SshReleasePorts` | internal/sshtun/server.go:148-214 | cancelling a forward and disconnecting return exactly the forward's port |
| `PortConservation.ReachableConserved` | internal/server/handler.go:364-423 | under that condition, in every reachable state, a port is in use exactly when it is held and has one holder |
| `PortConservation.AnnouncementFails` | internal/server/handler.go:412-417 | otherwise a run reaches a state where a tunnel holds a port that is free for others |
| `PortConservation.CleanupFreesForward` | internal/server/handler.go:739-742 | and then the tunnel's cleanup frees the port while an SSH forward holds it |
| `PortConservation.LatePortLeaks` | internal/server/handler.go:364-410 | a port registered after cleanup is in use and nobody's |
| `PortConservation.ConservedIff` | internal/server/handler.go:387-417 | ports are conserved in all runs if and only if there are none, or no frame is handled after cleanup and the longest address fits in its announcement |
| `Handlers.Registry.Register` | internal/server/registry.go:29-49 | a name is given once |
| `Handlers.Registry.Unregister` | internal/server/registry.go:51-55 | exactly that name leaves the registry |
| `Handlers.Registry.Get` | internal/server/registry.go:57-61 | the entry, if there is one |
| `Handlers.Registry.Snapshot` | internal/server/registry.go:70-78 | every tunnel once |
| `Handlers.ClientHandler.HandleRegister` | internal/server/handler.go:250-294 | accepted exactly for a well-formed and grantable request, and then recorded; a frame that encodes a name is answered with the address of that name |
| `Handlers.ClientHandler.HandleUnregister` | internal/server/handler.go:296-313 | only HTTP tunnels are known; name and tunnel go together |
| `Handlers.ClientHandler.HandleRegisterTLS` | internal/server/handler.go:315-362 | the same for TLS tunnels, if the server offers them |
| `Handlers.AskedIs` | internal/server/handler.go:250-266 | the frame a client sends for a port and a name asks for that name, or for any if it gives none |
| `Ownership.GrantsIff` | internal/server/handler.go:261-287 | a name is granted exactly when it is of 1 to 63 letters, digits and hyphens, its address has at most 255 bytes, the client has fewer than 20 tunnels and nobody has it |
| `Ownership.AddressNamesPort` | internal/server/handler.go:412-412 | the address announced for a TCP tunnel splits into the configured host and the granted port in decimal |
| `Handlers.ClientHandler.HandleRegisterTCP` | internal/server/handler.go:364-423 | every outcome with its effect on the table and the pool, the release without removal included |
| `Handlers.ClientHandler.Cleanup` | internal/server/handler.go:732-747 | every name and port of the handler, and nothing else, goes back, once |
| `PortAllocator.AutomaticGrant` | internal/server/tcp.go:44-61 | an automatic request succeeds if and only if a port is free and gets the first free one in cyclic order; exhaustion changes nothing |
| `PortAllocator.PreferredGrant` | internal/server/tcp.go:34-43 | a requested port is granted if and only if in range and free; the cursor stays |
| `PortAllocator.PortAllocator.Allocate` | internal/server/tcp.go:30-61 | the wrap-around scan computes exactly that, within 16 bits |
| `PortAllocator.PortAllocator.Release` | internal/server/tcp.go:63-67 | exactly that port becomes free |
| `PortAllocator.CursorPosition` | internal/server/tcp.go:44-58 | the cursor's place after any operations is its start plus the distance travelled, modulo the range |
| `PortAllocator.FullLapBetweenGrants` | internal/server/tcp.go:30-61 | between two automatic grants of one port the cursor makes a full lap |
| `Agreement.StepKeeps` | internal/client/tunnel.go:397-422 | without timeouts, the server's table is the client's list after what is on the links is taken |
| `Agreement.QuietAgrees` | internal/client/tunnel.go:583-729 | with nothing outstanding both sides hold the same IDs with the ports of their own register frames |
| `Agreement.LateReply` | internal/client/tunnel.go:676-684 | a run in which a late reply resolves another add and maps a tunnel to the wrong port |
| `Agreement.AgreeIff` | internal/client/tunnel.go:583-729 | the two sides agree in all quiet reachable states if and only if operations cannot time out |
| `Agreement.LateRemoval` | internal/client/tunnel.go:637-645 | a run in which a late reply resolves another removal: the client forgets a TCP forward the server has |
| `Agreement.OthersStay` | internal/server/handler.go:296-308 | without timeouts a TCP or TLS forward is never removed on either side: it stays in the server's table and in the client's list with its port |
| `AgreementHappens.AddThenRemove` | internal/client/tunnel.go:583-686 | whenever nothing is outstanding, an add that the server grants lists the forward on both sides, and removing it restores both |
| `AgreementHappens.RefusedChangesNothing` | internal/client/tunnel.go:583-686 | an add the server refuses, and a remove of a TCP or TLS forward, change nothing |
| `ForwardList.Forwards.SetMapping` | internal/client/tunnel.go:712-717 | the forward is appended |
| `ForwardList.Forwards.RemoveMapping` | internal/client/tunnel.go:719-729 | the first forward of the tunnel, and only it, is removed |
| `ForwardList.Forwards.PortFor` | internal/client/tunnel.go:740-749 | the port of the mapping the list stands for |
| `ForwardList.ListedRemoved` | internal/client/tunnel.go:719-729 | removing from a list without duplicates removes from the mapping |
| `HttpCodec.RequestRoundTrip` | internal/protocol/protocol.go:240-281 | decoding an encoded request, followed by anything, returns it for every order of its headers, if and only if it is within the decoder's limits |
| `HttpCodec.ResponseRoundTrip` | internal/protocol/protocol.go:283-311 | the same for responses |
| `HttpCodec.OrderDoesNotMatter` | internal/protocol/protocol.go:160-174 | any two orders of the header map decode to the same message |
| `HttpCodec.RequestSelfDelimiting` | internal/protocol/protocol.go:255-281 | every proper prefix of a valid request encoding is rejected |
| `HttpCodec.ResponseSelfDelimiting` | internal/protocol/protocol.go:293-311 | the same for responses |
| `HttpCodec.MessageBounded` | internal/protocol/protocol.go:176-238 | every accepted payload has at most 256 headers of at most 64 values |
| `HttpCodec.RequestSizeBound` | internal/protocol/protocol.go:255-281 | the decoded bytes are no more than the payload's |
| `HttpCodec.ResponseSizeBound` | internal/protocol/protocol.go:293-311 | the same for responses |
| `HttpWire.EncodeHTTPRequest` | internal/protocol/protocol.go:240-253 | the buffer code writes the encoding, or fails exactly when a part cannot be written |
| `HttpWire.EncodeHTTPResponse` | internal/protocol/protocol.go:283-291 | the same for responses |
| `HttpWire.DecodeHTTPRequest` | internal/protocol/protocol.go:255-281 | the reader code computes the parser |
| `HttpWire.DecodeHTTPResponse` | internal/protocol/protocol.go:293-311 | the same for responses |
| `HttpWire.Reader.ReadHeaders` | internal/protocol/protocol.go:176-211 | the nested loops read exactly the entries, with every limit check |
| `FrameCodec.EncodeFrame` | internal/protocol/protocol.go:105-113 | the array holds the 21-byte header and the payload |
| `FrameCodec.FrameRoundTrip` | internal/protocol/protocol.go:105-134 | an encoded frame decodes to itself if and only if its payload is within the limit |
| `FrameCodec.FrameSelfDelimiting` | internal/protocol/protocol.go:115-134 | every proper prefix is rejected |
| `FrameCodec.RegisterRoundTrip` | internal/protocol/protocol.go:343-372 | register payloads round trip for every subdomain of up to 63 bytes |
| `FrameCodec.RegisterPrefixes` | internal/protocol/protocol.go:356-372 | exactly one proper prefix of a register payload is accepted: the bare port |
| `FrameCodec.RegisterOKRoundTrip` | internal/protocol/protocol.go:374-398 | register replies round trip if and only if the address fits |
| `FrameCodec.RegisterOKSelfDelimiting` | internal/protocol/protocol.go:385-398 | every proper prefix of a register reply is rejected |
| `FrameCodec.RegisterTCPRoundTrip` | internal/protocol/protocol.go:400-413 | TCP register payloads round trip |
| `FrameCodec.AuthRoundTrip` | internal/protocol/protocol.go:421-446 | authentication payloads round trip if and only if token and version fit |
| `FrameCodec.AuthPrefixes` | internal/protocol/protocol.go:433-446 | which proper prefixes of an authentication payload are accepted, and as what |
| `Layout.FrameLayout` | internal/protocol/protocol.go:105-113 | a frame is its type, tunnel ID, request ID, payload length and payload, numbers with the most significant byte first |
| `Layout.PayloadLayouts` | internal/protocol/protocol.go:343-432 | the layouts of the register, reply, TCP register and authentication payloads |
| `Layout.MessageLayouts` | internal/protocol/protocol.go:136-174 | the layouts of the request and response payloads, with the count of values in front of each header |
| `Layout.Limits` | internal/protocol/protocol.go:51-63 | what a decoder accepts: at most 256 headers of at most 64 values, a body of at most 32 MiB, a frame of at most 34 MiB |
| `ClientHelloParser.ExtractSNI` | internal/server/sni.go:9-82 | the slicing loops compute the parser on arbitrary bytes without an index out of range |
| `ClientHelloParser.ParseServerName` | internal/server/sni.go:84-107 | the name loop computes the parser |
| `ClientHelloParser.WellFormedHello` | internal/server/sni.go:9-107 | on every well-formed hello the answer is the first host name of the first server_name extension, or none |
| `ClientHelloParser.ParserIsExact` | internal/server/sni.go:9-107 | exactly which byte strings yield which name |
| `ClientHelloParser.ListLengthIgnored` | internal/server/sni.go:89-106 | the announced list length only has to fit: the scan goes on to the end of the extension |
| `ClientHelloParser.ListLengthIff` | internal/server/sni.go:89-106 | bytes after the list never change the answer if and only if the list holds a name |
| `ClientHelloParser.NameBeyondTheList` | internal/server/sni.go:89-106 | an extension whose only name lies beyond its list, and is found |
| `ClientHelloParser.RecordDecides` | internal/server/sni.go:9-20 | no incomplete record yields a name, and bytes after the record change nothing |
| `Peek.PeekClientHello` | internal/server/tlspass.go:84-103 | the loop returns exactly the bytes read, at most 9215, and stops at the first of name, failure and limit |
| `Peek.ChunkingIndependent` | internal/server/tlspass.go:84-103 | for any cut into error-free reads the name is that of the whole stream while the record fits 8192 bytes |
| `Peek.MissedWhenCutAtTheLimit` | internal/server/tlspass.go:84-103 | between 8193 and 9215 bytes one cut misses the name |
| `Peek.FoundWhenCutBeforeTheLimit` | internal/server/tlspass.go:84-103 | and another cut of the same bytes finds it |
| `Peek.TooLongNeverFound` | internal/server/tlspass.go:84-103 | a longer record is never recognised |
| `Peek.HelloIsRecognised` | internal/server/tlspass.go:84-103 | a well-formed hello's name is found however it is cut, and every byte of the record is kept |
| `Peek.HelloReachesItsTunnel` | internal/server/tlspass.go:55-82 | a hello that announces a registered tunnel's name reaches that tunnel |
| `Subdomain.CheckSubdomain` | internal/server/handler.go:764-783 | the scan accepts exactly the valid names |
| `Subdomain.ValidIff` | internal/server/handler.go:764-783 | the valid names are those of at most 63 letters of either case, digits and hyphens |
| `Subdomain.ExtractIff` | internal/server/proxy.go:347-368 | a host yields a subdomain if and only if, without its port, it is that subdomain, a dot and the base domain |
| `Subdomain.OwnURL` | internal/server/proxy.go:347-368 | extraction inverts the construction of a public URL, with or without ports |
| `Subdomain.URLsDiffer` | internal/server/handler.go:268-268 | two subdomains never share a URL |
| `Version.NumAt` | internal/selfupdate/selfupdate.go:314-331 | the digit scan computes a component's number, -1 on overflow too |
| `Version.Newer` | internal/selfupdate/selfupdate.go:285-309 | the loop decides the order |
| `Version.NumberIff` | internal/selfupdate/selfupdate.go:314-331 | a number written in decimal is read back, whatever follows its digits, if and only if it fits an int |
| `Version.TagsAsNumbers` | internal/selfupdate/selfupdate.go:285-309 | tags made of numbers, with or without a v, are ordered as their numbers are: the first that differs decides, a missing one is zero |
| `Version.LessIsLex` | internal/selfupdate/selfupdate.go:285-309 | it is the strict lexicographic order on zero-extended vectors cut at the first unparseable component |
| `Version.LessTransitive` | internal/selfupdate/selfupdate.go:285-309 | it is transitive |
| `Version.LessAsymmetric` | internal/selfupdate/selfupdate.go:285-309 | it is asymmetric |
| `Version.NoUpdateCycle` | internal/selfupdate/selfupdate.go:282-309 | no chain of updates returns to an earlier tag |
| `ClientIp.ClientIP` | internal/server/protect.go:128-147 | the nested loops pick the N-th entry from the right, or the direct peer |
| `ClientIp.LineIs` | internal/server/protect.go:128-140 | the entries of a line are its fields, in order, without the white space around them and without empty ones |
| `ClientIp.OutermostIsTaken` | internal/server/protect.go:124-147 | when each of N trusted proxies appends what it saw, in the same line or one of its own, the answer is what the outermost saw, whatever it was sent |
| `ClientIp.OnlyLastMatter` | internal/server/protect.go:124-147 | with enough entries, lines or entries put in front change nothing |
| `ClientIp.BeyondInfluenceIff` | internal/server/protect.go:124-147 | nothing put in front changes the answer if and only if no hop is trusted or there are enough entries |

## Left out

- Bytes of the viewer that the HTTP server had buffered before an upgrade (internal/server/proxy.go:220-250): what is read is what the relay's own reads return.
- Whether a request asks for an upgrade (internal/protocol/protocol.go:313-335) is a flag of the request; both sides compute it from the same headers. An upgrade request with a body above the inline limit loses that body.
- Request and relay slots (internal/client/tunnel.go:768-779): a missing slot appears only as a refusal step.
- A race between the authentication timer's cleanup and a frame being handled (internal/server/handler.go:140-145): cleanup runs between frames, as it does on every other path.
- A send timeout on the server is one step: removing the entry, closing its channel and sending the close frame are not interleaved with other steps.
- Pending entries without a stream channel (internal/server/handler.go:549-551): no caller creates one.
- Listening, dialling, deadlines, pings, WebSocket framing, TLS and SSH themselves: nondeterministic outcomes of steps.
- Random IDs and names: assumed fresh, names are sixteen hexadecimal digits; the timestamp fallback is not modelled.
- Token comparison, hashing, signatures and the update download.
- Header filtering and defaults towards the viewer and the local application, error texts and logging.
- CIDR matching, Basic authentication and `net.SplitHostPort`: the direct peer is an input of `ClientIp.ClientIP`.
- The control socket, dashboard, tray, admin server and command lines.
- Link.Drop: a send on a closed channel, which panics and is recovered, is a dropped payload.
- StreamTables.Pending.HandleStreamData: the class form is sequential, so the queue is full at the timeout; the interleavings are in the machines.
- StreamTables.Tunnel.HandleStreamData: sequential in the same way.
- BodyReader.PumpRequestBody: the reads, the writes that succeed and the moment the exchange ends are inputs.
- BodyReader.BodyStreamReader.Read: where the original waits, the call returns with the outcome Waiting.
- Handlers.ClientHandler.Cleanup: the part that concerns names and ports; pending entries are closed in the stream machines.
