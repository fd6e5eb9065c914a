# Verified models of libstream

libstream gives TCP, websocket and Unix domain socket connections one stream interface on top of Boost.Asio
and Boost.Beast. This project models the parts of libstream that have logic of their own, in Dafny 4.11, and
proves what they promise for every schedule of the I/O library and every way a transport cuts up the data.

* **The read-ahead buffer** (`Bytes`, `ReadAhead`, `InlineReads`, `StreamObject`, `GatherWrite`, `RoundTrip`).
  `Stream` keeps what it received beyond a request for the next one. A transport is the list of byte strings
  that its `read_some` calls return (empty ones included) followed by an error. The main results: the
  buffer cannot be told from the plain byte string it carries, by any client that keeps to what its reads made
  available, synchronous or not; no byte is lost in any run; what was written is what is read; and exactly how
  deep the callbacks of `asyncRead` nest.
* **The initialisation of client streams** (`InitMachine`, `InitSafety`, `InitSocket`, `InitRetry`, `InitReconnect`,
  `InitTimer`, `InitDeadline`, `InitAgreement`, `ClientStreams`). Resolve, connect and websocket handshake with a
  timer that is armed again for each phase and whose handler closes the socket under the pending operation, as one
  machine for both kinds of client. A timer wait that has expired can no longer be cancelled, and handlers run in
  any order. The main results: one completion per `asyncInit`, finite runs, exactly when the socket is open after a
  success (also when an initialisation begins while timer handlers of earlier ones are queued, as in a retry from
  inside the callback), that a success means a new connection, the time bounds, and agreement with the synchronous
  `init`.
* **The servers** (`Acceptors`, `AcceptLoop`, `AcceptServers`, `Counting`, `WebsocketServerModel`,
  `WebsocketConservation`, `WebsocketRestart`, `WebsocketIsolation`, `WebsocketServerObject`, `StreamId`). The
  self-rearming accept loops with `stop` and callback re-entry, the two loops of the websocket server with
  any number of upgrades in flight, restarts, and the stream ids.

Code that updates objects is modelled by classes whose methods are proved to make the steps of a machine over
values; the theorems about all runs are lemmas about that machine. `Common` holds the error codes.

## Assumptions about the I/O library

* An operation completes once. One handler runs at a time, from beginning to end; ready handlers may run in any
  order, and other events may come between them.
* `cancel` and setting a new expiry time complete live timer waits with `operation_aborted`; a wait that has
  expired is out of reach. Connecting opens the descriptor. No connect or handshake succeeds on a closed socket.
* Closing an acceptor completes its outstanding accepts with an error; accepting on a closed acceptor, and opening an
  open one, report an error.
* The composed read and write repeat `read_some` and `write_some` until the amount asked for has been transferred
  or an error occurs. Times are integers; only `InitDeadline` assumes that ready handlers run without delay.

## Where the documentation and the code differ

The model follows the code.

* `include/stream/WebsocketClientStream.hpp:46` speaks of one maximum wait for connect and upgrade. The timer is armed
  for each, so an initialisation may succeed after twice that time (`InitDeadline.WebsocketCanTakeTwice`). One timeout
  is enough exactly for TCP clients and for timeouts of zero or less (`InitDeadline.OneTimeoutSufficesIff`).
* `include/stream/TcpClientStream.hpp:37-40` lets a timeout end in an error. A timer that expires just as the
  connection is made ends in a reported success on a closed socket (`InitSafety.SuccessOnClosedSocket`); the exact
  condition is `InitSocket.SuccessIsOpenIff`. A wait of an earlier initialisation can do the same to a later one
  (`InitRetry.RetryOnClosedSocket`); `InitRetry.TrustedIffClean` says from which states that cannot happen.
* `include/stream/WebsocketServer.hpp:30-32` attributes bind errors to the constructor. They are thrown by `start`, and
  leave the acceptor whose bind failed open without an accept (`WebsocketRestart.BindErrorNeedsStop`); the v6 acceptor
  may be left so while v4 serves. `WebsocketRestart.StartServesIff` gives the outcome of every start.

## Model

| member | source | states |
|---|---|---|
| ReadAhead.ChunksNeededIsLeast | src/TcpStream.cpp:39-42 | a read of at least n bytes takes the shortest prefix of the transport's chunks that holds n bytes, or all of them when there are fewer |
| ReadAhead.ReadSucceedsIffEnough | src/Stream.cpp:41-56 | `read(n)` succeeds exactly when buffered and undelivered bytes are at least n, whatever the chunks; on failure it reports the terminal error and everything received stays in the buffer |
| ReadAhead.ReadSomeReportsWholeBuffer | src/Stream.cpp:67-76 | on success the count is the whole buffer and at least 1, on error it is 0 with an empty buffer; it fails exactly when nothing is left, also behind empty chunks |
| ReadAhead.ReadFetchesWhatIsMissing | src/Stream.cpp:41-56 | a read leaves the transport alone when the buffer holds enough, and otherwise takes the shortest prefix of the chunks after which it does |
| ReadAhead.ReadSomeFetchesWhatIsMissing | src/Stream.cpp:67-76 | `readSome` leaves the transport alone when anything is buffered, and otherwise takes the chunks up to the first that is not empty |
| ReadAhead.ReadsTellWhatHappened | src/Stream.cpp:26-76 | every read, synchronous or not, gives its caller one answer: success exactly if the bytes were left, with the number of bytes then in the buffer for `readSome`, else the terminal error |
| ReadAhead.ConsumeTakesWhatIsThere | src/Stream.cpp:21-24 | `consume` takes what was asked for from the front, and everything if more was asked for than is there |
| ReadAhead.StepConservesBytes | src/Stream.cpp:5-76 | each call and each arrival keeps consumed, buffered and undelivered bytes together the same, and never takes back a consumed byte |
| ReadAhead.RunConservesBytes | include/stream/Stream.hpp:85-91 | the same over any run of all six operations, through errors and `consume` of more than is there |
| ReadAhead.DrainIsReadAtLeast | src/TcpStream.cpp:34-42 | an asynchronous read served one arrival at a time ends as the blocking read does |
| ReadAhead.AsyncReadAgrees | src/Stream.cpp:26-76 | `asyncRead` and `asyncReadSome` run to completion give the error code, count, buffer and transport of `read` and `readSome` |
| ReadAhead.AsyncRunAgrees | src/Stream.cpp:26-76 | the same for whole lists of calls |
| ReadAhead.AskRefinesPlain | src/Stream.cpp:21-76 | one request of a client is answered as the plain byte string would answer it, and what the client takes is what the string loses: n bytes, or after a failure all that is left; from `readSome` some bytes, if any are left |
| ReadAhead.BufferRefinesPlainStream | include/stream/Stream.hpp:31-36 | every client that chooses its requests from what it has seen, mixing `read`, `readSome` and their asynchronous forms and consuming any part of what a read made available, also after a failed one, gets answers of an unbuffered byte string |
| ReadAhead.ChunkingIsInvisible | include/stream/Stream.hpp:34-35 | two connections with the same remaining bytes and end give every client that does not use `readSome` the same answers, however the bytes are cut or already buffered |
| ReadAhead.SizeShowsChunks | src/Stream.cpp:11-14 | `size()` is outside that promise: after `read(1)` it depends on the chunks |
| StreamObject.Stream.ReadAtLeast | src/TcpStream.cpp:39-42 | the read loop takes the chunks, error code and count of the specification, and keeps the byte history |
| StreamObject.Stream.Consume | src/Stream.cpp:21-24 | takes what was asked for from the front of the buffer, or empties it if more was asked for, and leaves the rest |
| StreamObject.Stream.CopyDataAndConsume | src/Stream.cpp:5-9 | copies the first bytes of the buffer to the destination, leaves the rest of it alone, and takes exactly those bytes from the buffer |
| StreamObject.Stream.Read | src/Stream.cpp:41-56 | makes the machine's step; succeeds exactly when enough bytes are left, and then they are in the buffer |
| StreamObject.Stream.ReadSome | src/Stream.cpp:67-76 | makes the machine's step, with the promises about count and buffer |
| StreamObject.Stream.AsyncRead | src/Stream.cpp:26-39 | calls back at once when the data is there, otherwise starts a read for exactly the missing bytes |
| StreamObject.Stream.AsyncReadSome | src/Stream.cpp:58-65 | calls back at once with the buffered count, otherwise starts a read for one byte |
| StreamObject.Stream.RunEventLoop | src/TcpStream.cpp:34-37 | runs until the outstanding read has called back, and ends where the machine's drain ends |
| StreamObject.Stream.AsyncReadAndContinue | src/Stream.cpp:26-39 | a consumer that consumes and asks again in its callback, calls nested inside calls, ends in the state and depth of `InlineReads.Nest` |
| StreamObject.Stream.AsyncReadEqualParts | include/stream/Stream.hpp:61-62 | requests of n bytes nest size / n callbacks and suspend with size % n bytes |
| InlineReads.NestDepth | src/Stream.cpp:26-33 | the nesting is as deep as the number of requests the buffer can serve |
| InlineReads.NestServes | src/Stream.cpp:26-39 | each nested callback reports success, exactly the bytes asked for are consumed, and a read for what the next request lacks is outstanding |
| InlineReads.CallsBackIff | src/Stream.cpp:26-33 | the d-th nested callback is made if and only if the buffer holds what the first d requests ask for |
| InlineReads.NestingEndsIff | include/stream/Stream.hpp:61-62 | the nesting of callbacks on a stream ends if and only if the requests together ask for more than is buffered, and then after as many callbacks as the depth says |
| InlineReads.ZeroRequestsNeverEnd | include/stream/Stream.hpp:61-62 | a consumer that asks for zero bytes for ever is called back without end |
| InlineReads.PositiveRequestsDepth | include/stream/Stream.hpp:61-62 | requests of at least one byte nest no deeper than the buffer is long |
| InlineReads.EqualRequestsDepth | include/stream/Stream.hpp:61-62 | equal requests of n bytes: depth size / n, size % n bytes left, n minus that requested |
| GatherWrite.SuccessMeansAllWritten | src/TcpStream.cpp:54-62 | a write succeeds exactly when its count is the length of the data |
| GatherWrite.WriteOutcome | src/TcpStream.cpp:54-62 | the outcome of a write from what the `write_some` calls do: it succeeds if and only if the calls before the first failure take all the bytes, and then makes the fewest calls; otherwise the count is what those calls took and the error is that of the failing call |
| GatherWrite.WriteGoesOn | src/TcpStream.cpp:54-62 | a write goes on through any number of partial writes: as many calls that take something as there are bytes are enough |
| GatherWrite.Wire.WriteVector | src/TcpStream.cpp:59-62 | a gathering write puts out the same bytes, count and error as one flat buffer on the same schedule: the first count bytes of the concatenation; it succeeds exactly if the calls before the first failure take all of them, and otherwise has put out what they took |
| GatherWrite.Wire.Write | src/TcpStream.cpp:54-57 | the same for one buffer |
| RoundTrip.TransmitSendsPrefix | src/TcpStream.cpp:54-62 | a series of writes that ends at the first failure has sent a prefix of the payload, and all of it without a failure |
| RoundTrip.TransmitGoesOn | src/TcpStream.cpp:54-62 | a series of writes fails only by the first failing call of the transport, and sends everything if the calls before it take a byte each for every byte of the payload |
| RoundTrip.WriteMessages | src/TcpStream.cpp:59-62 | the series of writes on a connection object |
| RoundTrip.WriterToReader | src/Stream.cpp:5-56 | for any messages, write schedule, chunks and read sizes within what was sent, every read succeeds with its size, and together they are the beginning of the payload |
| InitSafety.RunKeepsInv | src/WebsocketClientStream.cpp:80-141 | the invariant of the machine over all runs, repeated initialisations included |
| InitSafety.ExactlyOnce | src/WebsocketClientStream.cpp:32-121 | in every reachable state the callback has been called for each `asyncInit` but the one under way; at most one timer wait is live, and none once the callback has started |
| InitSafety.StepLowersMeasure | src/WebsocketClientStream.cpp:80-121 | every completion, handler and expiry lowers a measure |
| InitSafety.RunsAreFinite | src/TcpClientStream.cpp:78-106 | at most 6 such steps per TCP `asyncInit` and 10 per websocket one |
| InitSafety.NeverStuck | src/TcpClientStream.cpp:27-106 | while the callback is due, the library can complete an operation or a handler can run |
| InitSafety.OnlyExpiredWaitsClose | src/WebsocketClientStream.cpp:135-141 | a wait live when it was cancelled or replaced never closes the socket; every wait that expired before that does, once its handler has run |
| InitSafety.SuccessMeansOpen | src/WebsocketClientStream.cpp:98-121 | as long as no wait expired and the user closed nothing, a reported success leaves the socket open |
| InitSafety.SuccessOnClosedSocket | src/TcpClientStream.cpp:94-106 | a run in which success is reported although the expired timer's handler closed the socket |
| InitReconnect.SuccessMeansConnected | src/WebsocketClientStream.cpp:32-121 | an initialisation of a stream that does not count as open begins by resolving, and reports success only after resolve, connect and (websocket) options and handshake, once each and in order, whatever expires or is closed meanwhile |
| InitReconnect.ClosedStreamReconnects | src/WebsocketClientStream.cpp:199-205 | a closed stream does not count as open, so the next `asyncInit` resolves, and succeeds only after a new connection |
| InitTimer.ConnectDeadline | src/WebsocketClientStream.cpp:18-56 | in every reachable state the timeout is the one last given, 5000 ms if none was, and connecting is given exactly that long from resolution |
| InitTimer.FastSuccessIsOpen | src/TcpClientStream.cpp:86-106 | an initialisation that takes less than its timeout has no wait expire, and its success leaves the socket open |
| InitTimer.WaitsAreConserved | src/WebsocketClientStream.cpp:87-141 | over any run, each wait armed is live, has its handler queued, or has had it called, exactly once |
| InitSocket.SuccessIsOpenIff | src/WebsocketClientStream.cpp:87-141 | for any initialisation begun in any history, with any timer handlers still queued: after a reported success the socket is open if and only if the user did not close it, none of its waits expired, and no earlier expired wait's handler ran after it had begun to connect (for a stream that counted as open: if the socket was open and no expired handler queued) |
| InitSocket.SuccessIsOpenIffNoExpiry | src/TcpClientStream.cpp:86-106 | if only handlers of cancelled waits were left over: if and only if none of its waits expired (and, if the stream counted as open at the start, the socket was open then) |
| InitRetry.TrustedIffClean | src/WebsocketClientStream.cpp:96-141 | every success of an initialisation that is not disturbed itself leaves the socket open, if and only if it began with no expired timer's handler queued and, on a stream that counts as open, with an open socket |
| InitRetry.RetryCannotAlwaysBeTrusted | src/TcpClientStream.cpp:94-106 | for both kinds of client a state is reached, by a timeout, from which a retry's success is taken back |
| InitRetry.RetryOnClosedSocket | src/WebsocketClientStream.cpp:96-141 | a retry that reports success on a socket the earlier timer has closed already, though none of its own waits expired |
| InitDeadline.CompletesInTime | src/WebsocketClientStream.cpp:87-120 | with prompt handlers each callback comes within one timeout of resolution for TCP and two for websocket, and time does not pass that bound while the callback of a resolved initialisation is still due |
| InitDeadline.WebsocketCanTakeTwice | src/WebsocketClientStream.cpp:107-115 | for every timeout a run that succeeds after exactly two timeouts |
| InitDeadline.OneTimeoutSufficesIff | src/WebsocketClientStream.cpp:107-115 | all callbacks with a given timeout come within that time of resolution if and only if the client is a TCP client or the timeout is not positive |
| InitAgreement.AsyncInitAgreesWithInit | src/WebsocketClientStream.cpp:58-121 | begun in any state with nothing under way, and with the same outcomes, `asyncInit` run to its callback reports the error code of `init`, leaves the same stream, and performs the same actions in the same order (options after connect, before handshake), provided no expired timer's handler ran |
| InitAgreement.SettledInitAgreesWithInit | src/TcpClientStream.cpp:51-98 | without expiry, now or left over, the same with no proviso |
| InitAgreement.RunsToQuiescence | src/TcpClientStream.cpp:51-98 | for all outcomes such a run of `asyncInit` exists from every state with nothing under way |
| ClientStreams.ClientStream.AsyncInit | src/WebsocketClientStream.cpp:32-56 | an open stream has its callback dispatched, otherwise resolving is the one operation outstanding; a timeout given is kept for later calls |
| ClientStreams.ClientStream.Init | src/WebsocketClientStream.cpp:58-78 | succeeds exactly when the stream was open or every operation succeeds, and then it is open; after an error a TCP stream counts as open exactly if its address was resolved; keeps the invariant, calls no callback |
| ClientStreams.ClientStream.OnResolve | src/TcpClientStream.cpp:78-92 | an error ends the initialisation with its one callback; otherwise connecting is the only operation outstanding, under a timer set now |
| ClientStreams.ClientStream.OnConnect | src/WebsocketClientStream.cpp:96-115 | TCP, and websocket on error: one callback with this error code, nothing left under way, no wait live; websocket on success: options set, then the handshake under a timer set now; every wait that was live is cancelled, and the socket is left alone |
| ClientStreams.ClientStream.OnUpgrade | src/WebsocketClientStream.cpp:117-121 | one callback with this error code, nothing left under way, and every wait that was live is cancelled |
| ClientStreams.ClientStream.TimeoutCb | src/TcpClientStream.cpp:100-106 | closes the socket unless the wait was cancelled, and calls nobody back |
| ClientStreams.ClientStream.RunHandler | src/WebsocketClientStream.cpp:44-121 | any ready handler, in any reachable state, either ends the initialisation with the only call of its callback or leaves exactly one operation outstanding under a new timer |
| ClientStreams.ClientStream.RunTimerHandler | src/WebsocketClientStream.cpp:135-141 | any ready timer handler closes the socket exactly if its wait was not cancelled |
| ClientStreams.ClientStream.Proceed | src/WebsocketClientStream.cpp:199-205 | completions, expiry and time keep the invariant; after a close the stream does not count as open |
| AcceptLoop.OneLoop | src/TcpServer.cpp:33-64 | after one `start` exactly one accept is outstanding, ready or in its callback until the first accept error, then none; the streams offered are the connections that arrived, in order |
| AcceptLoop.ServesUntilDisturbed | src/TcpServer.cpp:14-48 | a new server accepts: until a `stop` or a failed accept, each accept started is outstanding, has a connection to hand over or is in its callback |
| AcceptLoop.ManyLoops | src/LocalServer.cpp:26-68 | n calls of `start` make n loops, and every accepted socket is still offered once |
| AcceptLoop.StoppedStep | src/LocalServer.cpp:33-37 | once stopped, no step accepts anything, and every handler step brings the end nearer |
| AcceptLoop.StopEndsLoop | src/TcpServer.cpp:33-64 | a `stop` at any point, also inside the callback, leaves no accept, a bounded number of handler steps, and every socket ever accepted offered |
| AcceptServers.HandledStops | src/TcpServer.cpp:41-63 | a handler whose callback stops the server, or that runs after a stop, leaves no accept outstanding |
| AcceptServers.StreamServer.constructor | src/TcpServer.cpp:14-19 | the acceptor is open with nothing outstanding |
| AcceptServers.StreamServer.Start | src/TcpServer.cpp:26-31 | adds one outstanding accept if the acceptor is open and none if it is closed, keeping the invariant |
| AcceptServers.StreamServer.Stop | src/LocalServer.cpp:33-37 | the machine's step; nothing is outstanding afterwards |
| AcceptServers.StreamServer.OnAccept | src/LocalServer.cpp:46-68 | an accepted connection is offered once and the loop goes on, whether or not the callback throws; if the callback stops the server, or it was stopped before, no accept is left outstanding; an error offers nothing and ends the loop |
| AcceptServers.StreamServer.RunHandler | src/TcpServer.cpp:39-64 | running a ready handler keeps the invariant |
| WebsocketConservation.StepConserves | src/WebsocketServer.cpp:64-114 | a connection is put in one place when it is accepted and only moved by every other step |
| WebsocketConservation.EachConnectionInOnePlace | src/WebsocketServer.cpp:64-114 | in every reachable state each connection that arrived is in exactly one of: waiting for its handler, upgrading, upgrade ready, failed, offered; offered only if its upgrade ended in success and failed only if it ended in an error |
| WebsocketIsolation.FamiliesAreIsolated | src/WebsocketServer.cpp:64-114 | deleting everything that happened to one address family from a run leaves the listener and all connections of the other as they were |
| WebsocketRestart.RestartInvariant | src/WebsocketServer.cpp:30-90 | over any start/stop cycles with drained handlers, an open acceptor has exactly one live accept (none after a bind or accept error), a closed one has none outstanding |
| WebsocketRestart.SecondStartAddsNoLoop | src/WebsocketServer.cpp:30-55 | `start` leaves each acceptor that is open already as it is |
| WebsocketRestart.LiveIsConserved | src/WebsocketServer.cpp:64-90 | over any run without `stop`, starts included, the number of loops on an open acceptor falls by one for each failed accept and changes for no other reason |
| WebsocketRestart.LoopsAfterStart | src/WebsocketServer.cpp:30-90 | the number of loops at any time after a start, from the outcomes of open and bind, the connections still queued from the previous cycle and the failed accepts |
| WebsocketRestart.StartServesIff | src/WebsocketServer.cpp:34-52 | from a stopped and drained server both acceptors serve if and only if neither open nor bind fails; an acceptor is left open without an accept if and only if its bind was reached and failed |
| WebsocketRestart.FirstStartServes | src/WebsocketServer.cpp:17-55 | a new server is stopped and drained, and its first start leaves one accept outstanding on each acceptor that neither fails to open nor to bind, one loop until `stop` or a failed accept |
| WebsocketRestart.OneLoopIffDrained | src/WebsocketServer.cpp:35-42 | a restarted acceptor has one loop for good if and only if no accepted connection was still queued on it |
| WebsocketRestart.RestartCanDoubleLoop | src/WebsocketServer.cpp:57-90 | a run in which `stop` and `start` come before a queued accept handler, and two loops accept |
| WebsocketRestart.StoppedServerWindsDown | src/WebsocketServer.cpp:57-90 | after `stop` nothing is accepted, and every accept handler brings the end of both loops nearer |
| WebsocketRestart.BindErrorNeedsStop | src/WebsocketServer.cpp:34-52 | an acceptor of either family whose bind failed stays open without an accept in every run, further starts included, until `stop`; a start after that with a successful bind gives it one loop again |
| WebsocketServerObject.WebsocketServer.Start | src/WebsocketServer.cpp:30-55 | the machine's step; throws exactly when the bind of an acceptor that was closed fails, and changes nothing when both are open |
| WebsocketServerObject.WebsocketServer.Stop | src/WebsocketServer.cpp:57-62 | the machine's step |
| WebsocketServerObject.WebsocketServer.OnAccept | src/WebsocketServer.cpp:70-90 | puts the connection it is given in exactly one place, the upgrades in flight, changes the place of no other, and accepts again on the acceptor it was called for if that is open; on error nothing changes |
| WebsocketServerObject.WebsocketServer.OnUpgrade | src/WebsocketServer.cpp:92-114 | puts the connection in exactly one place: offered once on success, whether or not the callback throws, dropped on error; changes the place of no other |
| WebsocketServerObject.WebsocketServer.RunAcceptHandler | src/WebsocketServer.cpp:64-90 | running a ready accept handler keeps every connection in one place |
| WebsocketServerObject.WebsocketServer.RunUpgradeHandler | src/WebsocketServer.cpp:83-114 | the same for an upgrade handler |
| WebsocketServerObject.WebsocketServer.CompleteAccept | src/WebsocketServer.cpp:64-68 | an outstanding accept delivers a new connection or an error; every connection stays in one place |
| WebsocketServerObject.WebsocketServer.CompleteUpgrade | src/WebsocketServer.cpp:83-86 | an upgrade in flight ends; every connection stays in one place, decided by the outcome |
| StreamId.EndPointUrl | src/TcpServerStream.cpp:16-22 | the address with each dot replaced by an underscore, an underscore, and the port in decimal without leading zeros |
| StreamId.DecimalIsUnique | src/TcpServerStream.cpp:20 | the decimal form is the only string of digits without a leading zero that reads as the port |
| StreamId.ParseUrlOfUrl | src/TcpServerStream.cpp:16-22 | reading an id back gives the port, and the address with underscores turned into dots |
| StreamId.RoundTripIffNoUnderscore | src/WebsocketServerStream.cpp:50-56 | the endpoint is recovered if and only if the address contains no underscore |
| StreamId.SameIdIff | src/TcpServerStream.cpp:16-22 | two endpoints share an id exactly when ports are equal and addresses differ at most in dots against underscores; without underscores exactly when they are the same endpoint |
| StreamId.UnderscoresCollide | src/TcpServerStream.cpp:16-22 | two addresses with the same id |

## Left out

- Internals of Asio and Beast: memory of the stream buffer, reactor, resolver, and the framing of section 5 of RFC 6455; the opening handshake of section 4 is one operation.
- Data and an error reported by the same `read_some` call, and reads that succeed after an error: a transport ends with its first error.
- The `size_t` width: sizes are unbounded; the only subtraction, `size - remainingData`, is guarded and cannot wrap.
- `asyncWrite`: the asynchronous composed write follows the same loop as `write`.
- Overlapping asynchronous reads on one stream and overlapping `asyncInit` calls on one client, which callers must not make.
- `LocalStream`, `LocalClientStream` and the read and write members of the websocket streams: they repeat the modelled code over another transport.
- `FileStream`: operating-system calls with nothing to prove.
- Websocket options beyond the moment at which they are set, user-agent decorators, close handshakes and their timeouts.
- What the library does with a socket after a failed connect; nothing is claimed about later initialisations of a TCP client in that case except what its `is_open` test says.
- Objects being destroyed while handlers are still queued.
- Logging, thread creation and real clocks.
- A new-stream callback of the websocket server that calls `stop` or `start` is not nested in `OnUpgrade`: nothing follows the callback there, so it is the handler's step followed by that of the call.
- AcceptServers.StreamServer.OnAccept: the stream object and its inline initialisation, which always succeeds, are represented by the connection alone.
