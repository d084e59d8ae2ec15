# rzmq: verified models

rzmq is an asynchronous ZeroMQ stack. This project models the parts of it where state is driven by
interleaved events, and proves what they promise over every input and every run.

| files | part of rzmq |
|---|---|
| `Handler`, `HandlerSteps`, `HandlerObject` | the per-connection ZMTP handler of the io_uring backend: 17 phases fed by octets, send completions, application data, polls, close and end of stream |
| `HandlerRuns`, `HandlerV2` | what every run of it keeps: trace, phases, message order, ZMTP/2.0 sessions |
| `Interleaving`, `Confluence` | chunking and the order of reads and acknowledgements do not matter |
| `PlainAcks` | where that order does matter |
| `TwoSides`, `NullRounds`, `Network`, `Refusal`, `EndToEnd` | two handlers joined by byte streams: when the handshake completes, messages arrive |
| `SecureStreams`, `SecureSession`, `SecureLink` | two handlers running NOISE_XX change to encrypted framing at the same octet |
| `SecureBooks`, `SecureAccounts`, `SecureDelivery`, `SecureRuns` | what either application is then told was submitted by the other |
| `Bytes`, `Frames`, `Framers`, `Commands`, `Greeting` | wire formats and their readers |
| `PlainAuth`, `NoiseXx`, `Mechanisms` | security mechanisms and their negotiation |
| `BufferPool`, `Submission` | registered send buffers, submission and completion in the io_uring worker |
| `DealerQueue`, `Envelopes`, `RepSocket` | DEALER send path, request-reply envelopes, REP state |
| `Session`, `Throttle` | session actor and adaptive throttle |

Objects that the program updates in place are classes (`ZmtpUringHandler`, `LengthPrefixedFramer`,
`ManualParser`, `PlainMechanism`, `NoiseXxMechanism`, `SendBufferPool`, `UringWorker`,
`IncomingOrchestrator`, `Socket`, `SessionConnectionActor`, `AdaptiveThrottle`). Each method is proved
to take the whole abstract state to a step function of the old one, loops included, and the theorems
are about runs of these step functions. The DEALER send path, which is several tasks over shared
state, is a transition system with one step for each critical section.

## Environment

- Each send completes in full or fails; a short write does not occur.
- A push to the submission queue fails only when the queue is full.
- A connection send that returns an error has delivered nothing.
- Deadlines, heartbeat timers, random draws and free places in the upstream channel are parameters,
  so that theorems hold for all of them.
- The Noise library is a pair of functions from transcripts to messages and back, and a transport
  cipher for each transcript. Nothing is assumed of them beyond the `requires` of a theorem and
  that handshake messages are at most 65535 octets long (section 3 of the Noise Protocol Framework).
- The operations and events of a handler are kept as cumulative lists; the program hands the
  operations of each call to the worker. `framed` records the messages framed so far.

## Where the code does less than one may expect

- DEALER: with the socket closing, the processor puts the message it holds back twice; a run is
  orderly exactly when that branch is not taken (`DealerQueue.OrderlyIff`, `DealerQueue.ClosingReached`).
- ROUTER towards DEALER or REQ does not set MORE between payload frames: the payload arrives as one
  message exactly when the application set it (`Envelopes.RouterToDealerIff`, `Envelopes.RouterToReqIff`).
- Devices built of these sockets return a reply to REQ unchanged exactly when the one facing REQ
  strips the delimiter (`Envelopes.DevicesReplyIff`).
- A buffer pool of more than 65536 buffers repeats its identifiers (`BufferPool.NewPoolOkIff`).
- REP: a received request is lost exactly when it is given up or overtaken by a second receive
  (`RepSocket.LostIff`, `RepSocket.OverlappingReceives`); without overlapping receives none is
  overtaken (`RepSocket.NoneOvertaken`).
- A READY above the peer's message size limit keeps the handshake from completing, and nothing else
  does between two NULL ends (`Refusal.RefusedNeverJoins`, `Refusal.BothJoinIff`).
- With PLAIN the order of octets and acknowledgements changes the outcome
  (`PlainAcks.PlainOrderMatters`, `PlainAcks.ClientOrderIff`).
- PLAIN cuts credentials to 255 octets before they are compared (`PlainAuth.HonestPair`).
- The throttle is quiet in the healthy band, and certain beyond the maximum, only for some
  configurations and lengths of run (`Throttle.QuietIff`, `Throttle.CertainIff`).

## Model

| member | source | states |
|---|---|---|
| `Network.HandshakeCompletes` | core/src/io_uring_backend/zmtp_handler.rs:1122-1167 | Two handlers with opposite roles and NULL security that accept each other's READY, octets cut anywhere and acknowledgements arbitrarily late: no run has more moves than the octets of both streams and six; whenever none is left to make both are in the data phase; a side is there exactly when all its octets and acknowledgements have come, has then told its application once of the handshake with the identity the peer announced, and stands ready with an untouched framer, empty queue and no heartbeat under way |
| `Refusal.BothJoinIff` | core/src/io_uring_backend/zmtp_handler.rs:746-839 | Both handlers are in the data phase in some run exactly when each limit admits the other's READY: the condition of HandshakeCompletes, for all configurations |
| `Refusal.RefusedNeverJoins` | core/src/io_uring_backend/zmtp_handler.rs:746-839 | A handler whose limit does not admit the peer's READY is in the data phase in no run, however octets are cut and acknowledgements come |
| `Network.Table` | core/src/io_uring_backend/zmtp_handler.rs:311-445 | The state of a side after any number of octets and acknowledgements: which sends it has issued, and that it waits only when the peer still owes it octets or the worker an acknowledgement |
| `TwoSides.EveryRunCompletes` | core/src/io_uring_backend/zmtp_handler.rs:1276-1310 | The abstract argument for any two machines with such tables: bounded runs, no deadlock, completion at both ends |
| `TwoSides.EveryRunSafe` | core/src/io_uring_backend/zmtp_handler.rs:1276-1310 | The abstract argument for safety: what every octet and acknowledgement the peer can cause keeps on one side holds in every run of both |
| `TwoSides.SomeRunCompletes` | core/src/io_uring_backend/zmtp_handler.rs:1276-1310 | There is a run that leads to the end: moves can be made until none is left |
| `TwoSides.StuckIsDone` | core/src/io_uring_backend/zmtp_handler.rs:1385-1395 | A network in which no octet and no acknowledgement can move has both sides past the handshake |
| `NullRounds.RevisionRound` | core/src/io_uring_backend/zmtp_handler.rs:311-395 | Fewer than eleven octets are kept and nothing is sent; a version 3 prelude makes the rest of the greeting go out, and only the eleven octets are taken |
| `NullRounds.GreetingThenNull` | core/src/io_uring_backend/zmtp_handler.rs:397-743 | From the last octet of the greeting one call passes through the whole NULL exchange: a server waits for READY, a client has sent its own |
| `NullRounds.ReadyTells` | core/src/io_uring_backend/zmtp_handler.rs:196-219 | What a READY says when the peer parses it: the configured identity if there is one, and otherwise none |
| `NullRounds.WholeReady` | core/src/io_uring_backend/zmtp_handler.rs:746-839 | A READY within the size limit, however it came, brings the identity in and moves a server to its own READY and a client to the data phase |
| `NullRounds.PartReady` | core/src/io_uring_backend/zmtp_handler.rs:746-839 | A proper prefix of a READY changes nothing but the parser and its input |
| `NullRounds.OversizeReady` | core/src/io_uring_backend/zmtp_handler.rs:746-839 | Any part of a READY above ZMQ_MAXMSGSIZE is waited on without effect or ends the handshake in the error phase with a close; it is never taken |
| `EndToEnd.MessagesReachThePeer` | core/src/io_uring_backend/zmtp_handler.rs:841-921 | Messages submitted at one handler in the data phase and carried in any chunks reach the application at the other: the same frames, in order, once each, with nothing left over; for plain and for encrypted framers |
| `EndToEnd.HandshakeThenMessages` | core/src/io_uring_backend/zmtp_handler.rs:841-1167 | From two fresh handlers: after any handshake run with no move left, messages submitted at one and carried in any non-empty chunks are told at the other, in order and once each, behind the single HandshakeComplete with the announced identity |
| `EndToEnd.SubmitAllWrites` | core/src/io_uring_backend/zmtp_handler.rs:1535-1571 | Submitting a list of messages requests sends whose octets are together what the framer writes for the list |
| `EndToEnd.DataLoopTells` | core/src/io_uring_backend/zmtp_handler.rs:841-921 | The inner loop of the data phase tells upstream exactly the frames an independent reader of the buffer finds |
| `EndToEnd.ChunksTell` | core/src/io_uring_backend/zmtp_handler.rs:1169-1237 | The same when the octets come in any chunks |
| `EndToEnd.PingAnswered` | core/src/io_uring_backend/zmtp_handler.rs:864-880 | For any framer, plain or secure: a PING puts exactly what the framer writes for the PONG with its context on the wire and tells the application nothing; a framer that refuses fails the connection |
| `EndToEnd.PongArrives` | core/src/io_uring_backend/zmtp_handler.rs:864-880 | The paired reader finds that one frame, recognised as PONG with the context, and nothing else |
| `Confluence.InterleavingIrrelevant` | core/src/io_uring_backend/zmtp_handler.rs:251-953 | For NULL and ZMTP/2.0 sessions without timeouts the whole state (phase, buffers, requested sends, upstream events) depends only on the octets received and the number of acknowledgements, not on the chunks or on the order of reads and acknowledgements |
| `PlainAcks.ClientOrderIff` | core/src/io_uring_backend/zmtp_handler.rs:251-953 | For a client without NOISE_XX whose limit admits a WELCOME: the order of reads and acknowledgements is irrelevant to all its runs exactly when PLAIN is not enabled |
| `PlainAcks.PlainOrderMatters` | core/src/io_uring_backend/zmtp_handler.rs:1276-1395 | With PLAIN the law fails: for every client configuration that admits a WELCOME, two undisturbed causal runs with the same octets and as many acknowledgements end in different phases |
| `PlainAcks.OrderMatters` | core/src/io_uring_backend/zmtp_handler.rs:1276-1395 | From every state in which a client awaits a WELCOME: an acknowledgement before it has no effect, one after it counts for the READY |
| `Confluence.Merges` | core/src/io_uring_backend/zmtp_handler.rs:1169-1237 | Processing one chunk and then another gives what processing both together gives, in every phase |
| `Confluence.AckSwaps` | core/src/io_uring_backend/zmtp_handler.rs:1276-1395 | An acknowledgement commutes with the octets that follow it when it is due |
| `Confluence.AckBalanced` | core/src/io_uring_backend/zmtp_handler.rs:1276-1395 | A handler waiting for octets has had all its acknowledgements: one that is due meets a send phase or the data phase |
| `Confluence.ArmFeeds` | core/src/io_uring_backend/zmtp_handler.rs:260-950 | One round of the phase loop, given more octets, either does the same and leaves them over or could not decide without them |
| `Confluence.DataLoopFeeds` | core/src/io_uring_backend/zmtp_handler.rs:841-921 | The data loop stopped by a lack of octets resumes as though they had been there |
| `Interleaving.OrderIrrelevant` | core/src/io_uring_backend/zmtp_handler.rs:1169-1395 | The abstract law for any machine whose reads merge and commute with due acknowledgements: two causal runs with the same octets and as many acknowledgements end alike |
| `Interleaving.Canonical` | core/src/io_uring_backend/zmtp_handler.rs:1169-1395 | Every causal run ends where all octets followed by all acknowledgements lead |
| `SecureLink.FramersAligned` | core/src/io_uring_backend/zmtp_handler.rs:538-743 | In every run of two handlers over NOISE_XX, with any chunking, timeouts, closes and failures, each writes its plain octets first and its encrypted blocks after them, and each secure reader starts at exactly the octet where the other's blocks start; before that the plain reader stands inside the plain part |
| `SecureRuns.SecureDelivered` | core/src/io_uring_backend/zmtp_handler.rs:538-953 | The whole of it, for two fresh handlers over NOISE_XX whose suites match: in every run, with any chunking, completions, polls, submissions, timeouts, closes and failures, the data told to either application is a prefix of the data the other submitted; nothing is lost in between, doubled, reordered or made up |
| `SecureRuns.EventGood` | core/src/io_uring_backend/zmtp_handler.rs:1169-1656 | Every single event, of every kind, keeps a handler's account in order: what it sealed, what it opened, what it told |
| `SecureRuns.ProcessGood` | core/src/io_uring_backend/zmtp_handler.rs:251-953 | So does a whole call of the phase loop |
| `SecureDelivery.SecurityRoundGood` | core/src/io_uring_backend/zmtp_handler.rs:538-743 | A round of the security exchange keeps the transcript equal to the tokens of both sides woven together, and changes to the cipher of the completed one |
| `SecureDelivery.DataLoopGood` | core/src/io_uring_backend/zmtp_handler.rs:841-921 | The data loop tells exactly the data among the frames it takes and seals only its PONGs |
| `SecureAccounts.ReadGood` | core/src/security/framer.rs:61-87 | One secure read keeps the account: it opens only plaintexts the peer sealed and takes the next frame of them |
| `SecureAccounts.ToldWasFramed` | core/src/security/framer.rs:61-103 | Data told at one end with its account in order is a prefix of the data framed at the other |
| `SecureBooks.OpensSealed` | core/src/security/framer.rs:61-103 | Blocks opened from any prefix of a sealed stream are the first plaintexts sealed in it, and the rest begins at the next block |
| `SecureBooks.ReadStands` | core/src/security/framer.rs:61-87 | A secure read takes no frame, or the next one, of the plaintext opened so far, wherever blocks and frames were cut |
| `SecureBooks.TakenAreWritten` | core/src/security/framer.rs:34-103 | A reader that opened a prefix of what was sealed has taken a prefix of the frames that were written |
| `SecureLink.EventOk` | core/src/io_uring_backend/zmtp_handler.rs:1169-1656 | Every single event, of every kind, keeps the alignment, given what the peer has sent so far |
| `SecureSession.ProcessSecure` | core/src/io_uring_backend/zmtp_handler.rs:251-953 | A whole call of the phase loop keeps the alignment and only appends to what was sent |
| `SecureSession.SecurityRound` | core/src/io_uring_backend/zmtp_handler.rs:538-743 | A round of the security exchange keeps the reader at the boundary between two tokens |
| `SecureSession.LeaveSecure` | core/src/io_uring_backend/zmtp_handler.rs:684-743 | The switch to the secure framer happens with the unread octets beginning right after the peer's last plain octet |
| `SecureStreams.LayoutIsWire` | core/src/security/framer.rs:60-103 | Greeting, plain tokens and secure blocks, in this order, are everything that was requested to be sent |
| `SecureStreams.FindsFrame` | core/src/protocol/zmtp/manual_parser.rs:39-95 | Any frame a parser that stands at a written frame comes up with is that frame, however little has arrived |
| `SecureStreams.ReadOpens` | core/src/security/framer.rs:61-87 | A secure reader opens whole blocks in order and skips nothing |
| `HandlerRuns.TraceShape` | core/src/io_uring_backend/zmtp_handler.rs:158-249 | In every run the events told upstream are one Error, or HandshakeComplete, then data, then at most one Error, or a prefix of these |
| `HandlerRuns.PhasesNeverGoBack` | core/src/io_uring_backend/zmtp_handler.rs:260-950 | In every run the rank of the phase never decreases |
| `HandlerRuns.StepForward` | core/src/io_uring_backend/zmtp_handler.rs:1239-1656 | Every event of every kind keeps the trace in shape for its phase and the phase from going back |
| `HandlerRuns.MessagesInOrder` | core/src/io_uring_backend/zmtp_handler.rs:1322-1349 | In every run the messages framed for the wire are a prefix of those submitted; until queued messages are dropped by a close, framed and queued together are exactly those submitted, in order |
| `HandlerRuns.StepQueues` | core/src/io_uring_backend/zmtp_handler.rs:1426-1571 | No event loses, repeats or reorders a message, across handshake, draining and failed framing; nothing is framed outside the data phase |
| `HandlerSteps.ArmShrinks` | core/src/io_uring_backend/zmtp_handler.rs:931-952 | The phase loop terminates: a round that is followed by another lowers rank left, security steps left, unread octets, undecrypted octets, pending body, in lexicographic order |
| `HandlerSteps.ProcessStep` | core/src/io_uring_backend/zmtp_handler.rs:251-287 | A call of the phase loop is its first round followed by a call, with the deadline checked each round |
| `HandlerSteps.ProcessInduct` | core/src/io_uring_backend/zmtp_handler.rs:260-950 | Whatever every round keeps, a whole call keeps |
| `HandlerV2.V2Session` | core/src/io_uring_backend/zmtp_handler.rs:340-372 | A run that negotiated ZMTP/2.0 was never in a security or READY phase, and everything it requested to send is greeting, identity or submitted messages: no command frame and no heartbeat |
| `HandlerV2.V2Invariant` | core/src/io_uring_backend/zmtp_handler.rs:449-536 | The invariant behind it, over all runs of all sessions |
| `HandlerV2.V2RefusesCommands` | core/src/io_uring_backend/zmtp_handler.rs:849-863 | A command frame anywhere in what a ZMTP/2.0 session reads in the data phase takes it to the error phase |
| `HandlerV2.V2RefusesBadIdentity` | core/src/io_uring_backend/zmtp_handler.rs:489-536 | So does a command, a multipart frame or one above 255 octets in the place of the identity |
| `HandlerObject.ZmtpUringHandler.constructor` | core/src/io_uring_backend/zmtp_handler.rs:119-156 | A new handler is the start of every run above |
| `HandlerObject.ZmtpUringHandler.ProcessBufferedReads` | core/src/io_uring_backend/zmtp_handler.rs:251-953 | The phase loop on the fields of the object ends in the state and with the error of the recursive processing function, and terminates |
| `HandlerObject.ZmtpUringHandler.DataArm` | core/src/io_uring_backend/zmtp_handler.rs:841-921 | The inner loop over frames, against the recursive data loop |
| `HandlerObject.ZmtpUringHandler.SecurityArm` | core/src/io_uring_backend/zmtp_handler.rs:538-743 | The security exchange of one round: produce, read and process a token, then check the mechanism |
| `HandlerObject.ZmtpUringHandler.ReadyArm` | core/src/io_uring_backend/zmtp_handler.rs:746-839 | The two phases that wait for READY |
| `HandlerObject.ZmtpUringHandler.WaitPeerRevisionArm` | core/src/io_uring_backend/zmtp_handler.rs:311-395 | Greeting prelude and choice of version |
| `HandlerObject.ZmtpUringHandler.WaitV3GreetingArm` | core/src/io_uring_backend/zmtp_handler.rs:397-447 | Rest of the greeting and negotiation |
| `HandlerObject.ZmtpUringHandler.V2GreetingArm` | core/src/io_uring_backend/zmtp_handler.rs:449-487 | Socket type of a ZMTP/2.0 peer |
| `HandlerObject.ZmtpUringHandler.V2IdentityArm` | core/src/io_uring_backend/zmtp_handler.rs:489-536 | Identity of a ZMTP/2.0 peer |
| `HandlerObject.ZmtpUringHandler.TransitionToError` | core/src/io_uring_backend/zmtp_handler.rs:158-194 | Error phase, one upstream event unless one was told before, one close request |
| `HandlerObject.ZmtpUringHandler.SignalHandshakeComplete` | core/src/io_uring_backend/zmtp_handler.rs:221-249 | Upstream is told of the handshake with the identity that the version makes authoritative |
| `HandlerObject.ZmtpUringHandler.Connect` | core/src/io_uring_backend/zmtp_handler.rs:1122-1167 | First half of the greeting |
| `HandlerObject.ZmtpUringHandler.ProcessRingReadData` | core/src/io_uring_backend/zmtp_handler.rs:1169-1237 | Octets or end of stream |
| `HandlerObject.ZmtpUringHandler.HandleInternalSqeCompletion` | core/src/io_uring_backend/zmtp_handler.rs:1239-1398 | Acknowledged or failed sends in every phase |
| `HandlerObject.ZmtpUringHandler.PrepareSqes` | core/src/io_uring_backend/zmtp_handler.rs:1400-1533 | Deadline, read request, one queued message or a heartbeat |
| `HandlerObject.ZmtpUringHandler.HandleOutgoingAppData` | core/src/io_uring_backend/zmtp_handler.rs:1535-1571 | Direct framing or queueing of a message |
| `HandlerObject.ZmtpUringHandler.Close` | core/src/io_uring_backend/zmtp_handler.rs:1628-1648 | Closing drops what is queued |
| `Framers.StreamRoundTrip` | core/src/security/framer.rs:61-103 | Any list of multipart messages that a framer agrees to write, plain or with any lockstep-inverse cipher, is read back as the same frames in order, and the two ends are in step again |
| `Framers.DeliveredThroughAnyChunks` | core/src/security/framer.rs:61-103 | The same through any cutting of the octets |
| `Framers.PrefixWhileInFlight` | core/src/security/framer.rs:61-103 | While part of the octets is still on its way the reader has a prefix of the frames and no error |
| `Framers.ChunkingIrrelevant` | core/src/security/framer.rs:61-87 | For any octets at all, well formed or not, reading in chunks gives frames, failure and rest of reading in one piece |
| `Framers.TryReadResumes` | core/src/security/framer.rs:61-87 | A read that found nothing and is repeated with more octets gives what it would have given with all of them |
| `Framers.TryReadConsumes` | core/src/security/framer.rs:61-87 | Every frame found uses up input, so that loops over a framer end; a framer never changes its kind |
| `Framers.BlockReadableIff` | core/src/security/framer.rs:89-103 | A block can be read back exactly when the ciphertext is shorter than 65536 octets, since its prefix has sixteen bits |
| `Framers.LengthPrefixedFramer.TryReadMsg` | core/src/security/framer.rs:61-87 | The loop over parser and cipher, in place, against the recursive read |
| `Framers.LengthPrefixedFramer.WriteMsgMultipart` | core/src/security/framer.rs:89-103 | One block for all parts, or nothing changed when the cipher refuses |
| `Frames.FrameRoundTrip` | core/src/protocol/zmtp/codec.rs:110-142 | A written frame is parsed back with its flags and octets, and what follows is untouched, for both header sizes |
| `Frames.OversizeRefused` | core/src/protocol/zmtp/manual_parser.rs:60-67 | A frame above the limit is refused from its header alone |
| `Frames.OversizePartRefused` | core/src/protocol/zmtp/manual_parser.rs:60-67 | No part of such a frame is ever taken for a frame |
| `Frames.ProperPrefixWaits` | core/src/protocol/zmtp/manual_parser.rs:39-95 | No proper prefix of a frame is taken for a frame |
| `Frames.ParseResumes` | core/src/protocol/zmtp/manual_parser.rs:39-95 | The parser can be stopped and resumed at any octet |
| `Frames.FlagsRoundTrip` | core/src/protocol/zmtp/codec.rs:73-103 | The three flag bits do not disturb each other |
| `Frames.WriteFrames` | core/src/security/framer.rs:34-41 | The writing loop gives the encoding that FrameRoundTrip inverts, part after part |
| `Frames.ManualParser.DecodeFromBuffer` | core/src/protocol/zmtp/manual_parser.rs:39-95 | The parser's loop in place, against the recursive parse |
| `Commands.PropertiesRoundTrip` | core/src/protocol/zmtp/command.rs:139-156 | Metadata written in any order of properties is read back with the meaning of that order, later names winning |
| `Commands.ReadyRoundTrip` | core/src/protocol/zmtp/command.rs:159-173 | A READY built from properties is recognised and read back as those properties |
| `Commands.PingPongContext` | core/src/protocol/zmtp/command.rs:75-95 | PING and PONG are recognised and carry their context through |
| `Commands.ParseProperties` | core/src/protocol/zmtp/command.rs:108-136 | The cursor loop, against the recursive reading, with every malformed length refused |
| `Greeting.GreetingRoundTrip` | core/src/protocol/zmtp/greeting.rs:189-343 | Prelude and tail, sent in two stages, decode to the mechanism and role of the sender |
| `Greeting.PreludePeeks` | core/src/protocol/zmtp/greeting.rs:64-90 | The prelude alone shows the version |
| `Greeting.SocketTypeCode` | core/src/protocol/zmtp/greeting.rs:172-185 | A code that is given names that socket type, and no known name is without one |
| `Greeting.CodeOfName` | core/src/protocol/zmtp/greeting.rs:237-250 | Codes and names are inverse |
| `Greeting.V2PairingSymmetric` | core/src/io_uring_backend/zmtp_handler.rs:1736-1768 | One ZMTP/2.0 end accepts the other exactly when it is accepted |
| `Greeting.CompatibleCodes` | core/src/io_uring_backend/zmtp_handler.rs:1736-1768 | The accepted pairs, as a relation on codes |
| `PlainAuth.HonestPair` | core/src/security/plain.rs:151-287 | Two honest ends, any configuration: both ready exactly when the credentials cut to 255 octets are those expected; otherwise the server is in error and the client waits |
| `PlainAuth.ShortCredentialsMustMatch` | core/src/security/plain.rs:151-287 | Up to 255 octets both are ready exactly when the credentials are equal |
| `PlainAuth.ServerReadyMeansAuthenticated` | core/src/security/plain.rs:151-287 | Over arbitrary sequences of calls and tokens: a ready server was given a HELLO with the expected credentials |
| `PlainAuth.ErrorAbsorbs` | core/src/security/plain.rs:139-143 | Nothing leads out of an error and nothing is sent from it |
| `PlainAuth.HelloRoundTrip` | core/src/security/plain.rs:95-137 | A HELLO parses to the credentials cut to 255 octets, whatever follows it |
| `PlainAuth.ParsedHelloIsCanonical` | core/src/security/plain.rs:95-124 | A body that parses begins with the HELLO of what it parses to |
| `PlainAuth.PlainMechanism.ProcessToken` | core/src/security/plain.rs:151-255 | Tokens in both roles, in place, with wrong names, roles and credentials |
| `PlainAuth.PlainMechanism.ProduceToken` | core/src/security/plain.rs:257-287 | HELLO once, WELCOME once |
| `NoiseXx.Agreement` | core/src/security/noise_xx.rs:121-277 | In every run in which the server accepts as third message only one the client sent, if acceptance binds a message to the transcript it was written after: a client is ready exactly when it has sent the third message, and then the key it read in the handshake is the configured one; a ready server means the client was ready first, with the same transcript |
| `NoiseXx.InvariantHolds` | core/src/security/noise_xx.rs:308-445 | The joint invariant of both ends and what they have sent, kept by every event |
| `NoiseXx.HonestHandshake` | core/src/security/noise_xx.rs:308-445 | Undisturbed, both ends become ready exactly when the key presented is the configured one; otherwise the third message is never produced |
| `NoiseXx.GuardFitsPrefix` | core/src/security/noise_xx.rs:508-524 | The payload guard keeps every block of a cipher that adds a 16-octet tag within its sixteen-bit prefix |
| `NoiseXx.FramersPair` | core/src/security/noise_xx.rs:485-543 | Two ready ends with one transcript hold framers to which StreamRoundTrip applies |
| `NoiseXx.NoiseXxMechanism.TransitionToFinalState` | core/src/security/noise_xx.rs:121-277 | Key check and switch to transport, in place, with the early third message kept for sending |
| `NoiseXx.NoiseXxMechanism.ProduceToken` | core/src/security/noise_xx.rs:308-390 | Next handshake message, or the pending one |
| `NoiseXx.NoiseXxMechanism.ProcessToken` | core/src/security/noise_xx.rs:392-445 | Reads a handshake message and finishes when it was the last |
| `Mechanisms.NegotiationAgrees` | core/src/security/mod.rs:148-209 | Each end runs what the other proposed, yet for any two configurations: ends that both find a mechanism found the same, and both find one exactly when they propose the same and, for NULL, have nothing else enabled |
| `Mechanisms.ProduceUsesStep` | core/src/io_uring_backend/zmtp_handler.rs:538-610 | A mechanism can produce only a bounded number of tokens: part of why the phase loop ends |
| `Mechanisms.ProcessUsesStep` | core/src/io_uring_backend/zmtp_handler.rs:590-640 | Accepting a token never gives back a step |
| `Submission.ZeroCopyInvariant` | core/src/io_uring_backend/worker/cqe_processor.rs:309-799 | In every run of submissions and completions: slots in kernel use are exactly those of tracked zero-copy sends, one each; the octets to be sent stay in the slot until its notification or failure; every acquired buffer is either still with its send or was given back, never both |
| `Submission.CompleteJoint` | core/src/io_uring_backend/worker/cqe_processor.rs:463-546 | A completion ends a zero-copy send, and frees its slot, exactly when it is the notification or a failure; other sends are untouched |
| `Submission.SubmitResumable` | core/src/io_uring_backend/worker/cqe_processor.rs:165-303 | Submission that stops has pushed exactly the in-order image of the processed requests, each with a fresh tracker entry; the rest it returns is the unprocessed part, and the queue is full |
| `Submission.RetrySubmitsOnce` | core/src/io_uring_backend/worker/cqe_processor.rs:38-48 | However often it is retried with what is left, each request of the connection is pushed once, in order |
| `Submission.RetrySucceeds` | core/src/io_uring_backend/worker/cqe_processor.rs:38-48 | If pauses free entries, a retry for each request is enough |
| `Submission.UringWorker.ProcessHandlerBlueprints` | core/src/io_uring_backend/worker/cqe_processor.rs:22-304 | The loop over requests in place, against the recursive submission, with early return of the rest |
| `Submission.UringWorker.PushSendZeroCopy` | core/src/io_uring_backend/worker/cqe_processor.rs:89-160 | Acquire, track and push; without a free or large enough buffer an ordinary send instead |
| `Submission.UringWorker.ProcessCqe` | core/src/io_uring_backend/worker/cqe_processor.rs:463-546 | One completion on the tracker and the pool |
| `BufferPool.AcquireOk` | core/src/io_uring_backend/send_buffer_pool.rs:99-139 | An acquired slot was free, holds the octets, and no other slot changes; a refusal changes nothing; the free list stays duplicate-free and complementary |
| `BufferPool.ReleaseOk` | core/src/io_uring_backend/send_buffer_pool.rs:143-170 | Releasing frees that slot once and changes no octet |
| `BufferPool.AcquireThenRelease` | core/src/io_uring_backend/send_buffer_pool.rs:99-170 | Releasing undoes acquiring up to the turn in the free list |
| `BufferPool.NewPoolOkIff` | core/src/io_uring_backend/send_buffer_pool.rs:51-94 | Identifiers are cut to sixteen bits: the pool is consistent exactly with at most 65536 buffers, or none of any capacity |
| `BufferPool.SendBufferPool.AcquireAndPrepBuffer` | core/src/io_uring_backend/send_buffer_pool.rs:99-139 | The same on the shared object |
| `BufferPool.SendBufferPool.ReleaseBuffer` | core/src/io_uring_backend/send_buffer_pool.rs:143-170 | The same, also for unknown and already free identifiers |
| `DealerQueue.DealerConserves` | core/src/socket/dealer_socket.rs:734-912 | Any interleaving of any number of senders and the processor that does not take the closing branch: each message is at each step in exactly one place; deliveries by the processor are in queue order; queue and held message together are at most the high-water mark (at least 1) plus the number of senders |
| `DealerQueue.RunningAvoidsClosing` | core/src/socket/dealer_socket.rs:54-225 | A socket still running has never taken the closing branch |
| `DealerQueue.OrderlyIff` | core/src/socket/dealer_socket.rs:54-225 | A run, closing or not, has every message in one place and deliveries in order exactly when the closing branch was never taken in it |
| `DealerQueue.ClosingReached` | core/src/socket/dealer_socket.rs:97-109 | For every mark and number of senders there is a run from the start that takes it, after which the held message is queued twice |
| `DealerQueue.BoundIsTight` | core/src/socket/dealer_socket.rs:866-912 | For every high-water mark and every number of senders a run from the start reaches the bound |
| `Envelopes.ReplyReachesRequester` | core/src/socket/rep_socket.rs:264-298 | A request through any chain of foreign ROUTERs, which only put on and take off identities, reaches REP whole, and any reply comes back to REQ unchanged |
| `Envelopes.DevicesAddress` | core/src/socket/router_socket.rs:60-145 | Through devices built of this ROUTER and DEALER every hop puts one identity in front and leaves one message |
| `Envelopes.DevicesReplyIff` | core/src/socket/patterns/router.rs:198-289 | The reply then comes back unchanged exactly when there is no device or the one facing REQ strips the delimiter; otherwise it has one more empty frame in front |
| `Envelopes.SplitCovers` | core/src/socket/rep_socket.rs:264-298 | Prefix and payload are the request, for all frame lists |
| `Envelopes.SplitRequest` | core/src/socket/rep_socket.rs:264-298 | The splitting loop, against the recursive split at the first empty frame |
| `Envelopes.SplitRecovers` | core/src/socket/patterns/incoming_orchestrator.rs:33-54 | Splitting the concatenated frames of one pipe at MORE recovers the list of messages |
| `Envelopes.PipesApart` | core/src/socket/patterns/incoming_orchestrator.rs:33-54 | Frames that come interleaved on many pipes are assembled on each as though it were alone |
| `Envelopes.RecoveredOnPipe` | core/src/socket/patterns/incoming_orchestrator.rs:33-54 | So the messages sent on a pipe are recovered whatever comes on the others |
| `Envelopes.OneMessageIff` | core/src/socket/patterns/incoming_orchestrator.rs:33-54 | Frames are assembled to one message exactly when MORE is on all but the last; otherwise to several |
| `Envelopes.IncomingOrchestrator.AccumulatePipeFrame` | core/src/socket/patterns/incoming_orchestrator.rs:33-54 | One frame on one of many pipes, in place: the partial message of that pipe alone changes, and a last frame gives it back whole |
| `Envelopes.DealerToDealer` | core/src/socket/dealer_socket.rs:289-406 | DEALER to DEALER delivers the payload, in automatic and manual mode |
| `Envelopes.DealerToRouter` | core/src/socket/router_socket.rs:60-145 | DEALER to ROUTER delivers the identity and the payload |
| `Envelopes.RouterToDealerIff` | core/src/socket/patterns/router.rs:198-289 | What ROUTER sends is assembled at DEALER to one message exactly when the application set MORE on every payload frame but the last, and is then the payload; otherwise to several messages |
| `Envelopes.UnmarkedPayloadBreaks` | core/src/socket/patterns/router.rs:222-248 | A payload without flags that arrives as two messages |
| `Envelopes.RouterToReqIff` | core/src/socket/patterns/router.rs:222-248 | The same towards REQ |
| `Envelopes.SetMoreFlags` | core/src/socket/dealer_socket.rs:373-406 | The flag loop leaves MORE on all frames but the last, whatever was set before |
| `RepSocket.AnsweredAtMostOnce` | core/src/socket/rep_socket.rs:128-196 | Under any interleaving of arrivals, overlapping receives, sends and disconnects: every answer goes to the endpoint of a request that was received, behind its own envelope, and no request is answered twice |
| `RepSocket.LostIff` | core/src/socket/rep_socket.rs:98-196 | Over all runs, a received request can no longer be answered, without having been, exactly when some event met it while held: a send that fails or a disconnect gave it up, or a second receive overtook it |
| `RepSocket.StepLosesIff` | core/src/socket/rep_socket.rs:98-196 | The same for one event from any sound state |
| `RepSocket.LostForever` | core/src/socket/rep_socket.rs:128-196 | What is lost is never answered later |
| `RepSocket.SingleReceiver` | core/src/socket/rep_socket.rs:98-126 | When receives do not overlap, at most one receive is under way or one request held, in every run |
| `RepSocket.NoneOvertaken` | core/src/socket/rep_socket.rs:98-225 | Then none is overtaken: every request received is held, answered, or was given up |
| `RepSocket.ReplyKeepsEnvelope` | core/src/socket/rep_socket.rs:128-196 | Request, receive and send in a row put the reply behind the prefix that came with the request |
| `RepSocket.OverlappingReceives` | core/src/socket/rep_socket.rs:198-225 | A run from the start with two overlapping receives, for any two requests: the first is held, overtaken, and then unanswerable whatever follows |
| `RepSocket.Socket.HandlePipeMessage` | core/src/socket/rep_socket.rs:246-304 | A request is split and queued |
| `RepSocket.Socket.PopRequest` | core/src/socket/rep_socket.rs:98-126 | A receive call takes the first request and holds it for reply |
| `RepSocket.Socket.CheckReady` | core/src/socket/rep_socket.rs:103-110 | The check made before a receive waits |
| `RepSocket.Socket.SendMultipart` | core/src/socket/rep_socket.rs:128-196 | Reply or error, and the state afterwards |
| `RepSocket.Socket.PipeDetached` | core/src/socket/rep_socket.rs:337-365 | A peer that goes away takes only its own held request with it |
| `Session.OperationalIff` | core/src/sessionx/actor.rs:427-525 | In every run without an ending event: operational exactly when the handshake was reported complete and the pipes for this session came, in either order; the identity was published exactly then |
| `Session.RunConsistent` | core/src/sessionx/actor.rs:329-525 | In every run the publication carries the id of attached pipes, and phases, pipes and handshake agree |
| `Session.NothingIsTakenBack` | core/src/sessionx/actor.rs:579-642 | In every run phases never go back, the first error stays, and at most one publication is ever made |
| `Session.StepConsistent` | core/src/sessionx/actor.rs:329-642 | The same for one event of any kind |
| `Session.SessionConnectionActor.CheckAndTransitionToOperational` | core/src/sessionx/actor.rs:462-525 | Transition and publication, in place |
| `Session.SessionConnectionActor.InitializePipesCommand` | core/src/sessionx/actor.rs:329-403 | Pipes for this session or for another |
| `Session.SessionConnectionActor.HandleHandshakeProgression` | core/src/sessionx/actor.rs:427-460 | The four outcomes of a handshake step |
| `Session.SessionConnectionActor.PerformGracefulShutdown` | core/src/sessionx/actor.rs:612-642 | Shutdown detaches the pipes and keeps the first error |
| `Throttle.FairnessBound` | core/src/throttle/mod.rs:183-250 | After any history, as many same-direction cycles in a row as the limit contain a yield, whatever the draws |
| `Throttle.LearnedInHull` | core/src/throttle/mod.rs:107-161 | The learned balance stays between the least and the greatest of 0 and the observed balances |
| `Throttle.QuietIff` | core/src/throttle/strategies.rs:18-47 | Until the balance could wrap, over all runs of up to n cycles: no draw makes it yield within the healthy band exactly when the band ends before twice the maximum or the lag of the straight run stays below that; for any curve |
| `Throttle.NarrowIsQuiet` | core/src/throttle/strategies.rs:18-47 | A band that ends before twice the maximum is quiet in runs of any length |
| `Throttle.LoudAt` | core/src/throttle/strategies.rs:18-47 | A lag from twice the maximum up to the end of the band is reached by a run, and some draw yields there |
| `Throttle.CertainIff` | core/src/throttle/mod.rs:183-250 | Until the balance could wrap, over all runs of up to n cycles: every draw makes it yield at or beyond the maximum exactly when the maximum is 0, or exceeds the band with a boost of at least 1 or no priority, or no run deviates that far |
| `Throttle.DecisiveIsCertain` | core/src/throttle/mod.rs:183-250 | Under the first two it is certain in runs of any length |
| `Throttle.UncertainAt` | core/src/throttle/mod.rs:183-250 | Otherwise a lag between the maximum and twice it is reached by a run in which some draw does not yield |
| `Throttle.EdgeAt` | core/src/throttle/mod.rs:183-250 | So too when maximum and band end coincide and the lag meets them exactly |
| `Throttle.RunWithin` | core/src/throttle/mod.rs:107-161 | No run of n cycles deviates farther from its learned average than the run that always goes one way |
| `Throttle.StraightReaches` | core/src/throttle/mod.rs:107-161 | And that run deviates exactly so far |
| `Throttle.LagIsBalance` | core/src/throttle/mod.rs:107-161 | Until the average first moves, that is the balance itself |
| `Throttle.AdaptiveThrottle.BeginWork` | core/src/throttle/mod.rs:107-161 | Balance, learned average and streak of one cycle, with 32-bit wrap |
| `Throttle.AdaptiveThrottle.ShouldThrottle` | core/src/throttle/mod.rs:183-250 | Whether it yields for a given draw, and the streak afterwards |

## Left out

- Real cryptography and the CURVE mechanism: foreign code; only the handshake transcript and an abstract cipher are modelled.
- Kernel calls, transports (TCP, IPC, inproc), sockets and file descriptors, corking, memory registration.
- The multishot reader, except that a poll may ask for a read before it does anything else.
- The tokio-based `protocol_handler`, whose handshake follows the same steps as the modelled handler.
- The handler's second queue for single messages: the live io_uring senders submit only lists of parts.
- PUB, SUB, PUSH and PULL, which delegate to a distributor, a trie and a load balancer: easy members.
- REQ beyond its envelopes: its send/receive alternation and the check of a reply's source.
- ROUTER's frame-by-frame `send` and its identity maps; the envelopes are those of `send_multipart`.
- Options, endpoints, error texts (errors are kinds), metadata, tracing.
- PLAIN's state before initialisation and `set_error` called from outside a mechanism.
- Locks and sharing: objects are used by one caller at a time, except in `DealerQueue` and `RepSocket`, whose steps interleave.
- Branches that answer a failed push after the queue was seen to have room: unreachable under the environment assumption.
- InterleavingIrrelevant: stated for NULL and ZMTP/2.0 sessions. For a client with PLAIN it is false (`ClientOrderIff`); for a PLAIN server nothing is claimed, and for NOISE_XX nothing is claimed of the order of acknowledgements, only what `FramersAligned` and `SecureDelivered` say of every order.
- HandshakeCompletes: both ends have NULL security, a socket type name of at most 255 octets and room for one upstream event; that each limit admits the other's READY is necessary (`BothJoinIff`).
- HandshakeThenMessages: from NULL handshakes; for NOISE_XX there is `SecureDelivered`, which says that nothing wrong is told, not that a run goes on until all is.
- FramersAligned: both ends have NOISE_XX and nothing else to negotiate; handshake messages are at most 65535 octets long.
- SecureDelivered: the same, each suite's transport opens what the other's seals after every handshake and adds a 16-octet tag, and frames written are shorter than 2^64 octets, as a header can say.
- Agreement: that the server takes a third message only from the client, and only after the transcript it was written for, is asked of the Noise library, not proved.
- ReplyReachesRequester: the routers between are foreign ones; for those of this library see `DevicesReplyIff`.
- ZeroCopyInvariant: for fewer than 2^64 - 10^9 tracked operations, after which the tracker's identifiers would repeat.
- ShouldThrottle: arithmetic is over the reals, cycles are sequential; the power curve is any function that is 0 at 0, 1 at 1 and between them inside, since Dafny has no real exponents. Two throttle guards at once are not modelled.
- QuietIff: up to the cycle in which the balance could wrap in 32 bits, and for a band that ends before twice the maximum or at least one credit after it; between, only `NarrowIsQuiet` and `LoudAt` speak.
- CertainIff: up to the same cycle, for a credit between 0 and the maximum and a maximum other than the end of the band; for the rest `DecisiveIsCertain`, `UncertainAt` and `EdgeAt` speak.
