# Verification of rns-proxy

rns-proxy carries many TCP and UDP sessions over one Reticulum link. Each end
encodes frames (type, session id, length, payload), puts them into a queue of
five, and a single sender task cuts them into link-sized chunks; the other end
reassembles the chunks, and hands every frame to the session it names. Links die
and are replaced at any moment, in the middle of a frame too.

This project models that machinery in Dafny and proves that what comes out of a
session is a prefix of what went into it: for every interleaving of the tasks,
every way the network fragments the bytes, every refused send, every reset and
every reconnect.

## How it is organised

| file | contents |
|---|---|
| `Basics`, `Frames`, `ConnectPayload` | integers and sequences; the frame codec; the payload of a Connect |
| `Reassembly` | what `receive_data` does to its buffer, for any fragments, damaged ones too |
| `Mux` | `MuxState` and its operations; the classes `MuxHandle`, `Channel` and `Node` with the real loops |
| `Relay`, `Client` | the loops of `relay.rs` and `client.rs`, as methods |
| `Server` | the event loop of `server.rs` over its table of muxes, as methods of a class, for any events of any links with any bytes |
| `Traces` | projections of frame histories: by session, by kind, to payloads |
| `Sessions` | the tasks of one session (handshake, reader, writer, ending) as a state machine, with its invariant |
| `Endpoints`, `EndpointProofs` | one end: mux, sender task, sessions; every step keeps its invariant |
| `System`, `Invariant`, `SystemProofs` | one client with its links and the server's muxes for them; every step keeps the invariant |
| `Theorems`, `Isolation`, `Backpressure` | the results about all reachable states of that system, and about two moments of one run |
| `World`, `WorldTheorems` | any number of such clients sharing one server with one table and one event loop; the results per client and session id |
| `SenderTask`, `Loops` | the tasks' steps against the loops; which links a late failure can hit |
| `SessionIds` | ids under wrap-around arithmetic |
| `Filter` | the ordered address filter and the rule lists compiled from the command line |
| `Examples`, `Conversation` | runs that show that the states some results are about occur, up to whole sessions that open, relay both ways and close, or are refused |

The methods of the classes and the steps of the system use the same functions for
what happens to a mux (`ClearLink`, `ClearSessions`, `ClearBuffer`, `Register`,
`Unregister`, `Push`, `Successor`, `Drain`), and the loops are tied to sequences of
steps by `SenderTask.StepsMatchLoop` and the lemmas of `Loops`. A step of the system
is what one task does between two await points; `reset`, which takes three locks in
turn, is three steps. A state that is `Reachable` is one that some sequence of
enabled steps of one client's system leads to; a world that is `Possible` is one that
steps of any number of clients lead to.

`System` has one client. That is no assumption about the server: `World` has any
number of clients, all of which number their sessions from 1, and
`World.RunsAreSeparate` and `World.ViewIsReachable` show that what each of them sees
is a run of its own `System`. So every result about `Reachable` states, and about
runs, holds for every client of every world.

Assumptions about the world, all of them guards of steps in `System` and `World`:

- every link delivers an in-order prefix of the bytes handed to it (the repository's README, line 7, says that a lossy link corrupts streams);
- link ids are never reused, by any client; a link's data arrives after its established and before its closed event; a closed event that the dispatching client sees is that of its own link (the client's code looks at neither id);
- results about a client hold as long as fewer than 2^32 session ids were allocated by it; `SessionIds` says exactly when a registration is lost after that, but nothing about frames delivered under an id that has come round;
- payloads of Connect and ConnectErr frames are at most 65535 bytes long, because the encoder casts the length to sixteen bits (`Frames.RoundTrip` says exactly what happens otherwise);
- sockets, the clock, DNS and the SOCKS5 handshake choose freely among the steps the code allows.

The chunk size is an arbitrary number throughout. The methods of `Server` assume
nothing about what links bring.

Where the code and its documentation differ, the code is modelled:

- README.md:60 promises a new RNS node after repeated failures; the reconnect loop never makes one.
- src/frame.rs:101 says that `decode` returns `None`; it tells apart too few bytes and an unknown type, and the difference matters (`Reassembly.DamageIsLocal`).
- src/mux.rs:170-171 says that the lock on the link id keeps frames from being interleaved; it is the single sender task that does.
- src/filter.rs:160 says that TCP and UDP are not told apart; they are.

One thing the code does that is surely not wanted: a send that fails after its
link has already been replaced clears the new link, which is then never used
although it works (`SenderTask.LateFailureClearsNewLink`). It can happen exactly if
the sender task is in the middle of a frame when the new link is set
(`SenderTask.RefusalSparesOtherLinks`). Safety does not suffer.

## Model

| member | source | states |
|---|---|---|
| WorldTheorems.UploadsAreTransparent | src/relay.rs:37-80 | with any number of clients using the same session ids: what a server session has written to its target is, read by read and byte by byte, a prefix of what the session of that id of the link's owner has read (of datagrams, a subsequence) |
| WorldTheorems.DownloadsAreTransparent | src/relay.rs:37-80 | a client session has written nothing, or what it wrote is a prefix of what the server session of its id on one of this client's own links has read |
| WorldTheorems.LinksAreIsolated | src/server.rs:162-209 | a server session was opened by a Connect that the owner of its link put on that link, and received Data and Close frames of its id put on that link after it, in order; none of the owner's other links has a session of that id |
| WorldTheorems.RequestsAreHonoured | src/server.rs:173-199 | a server session is for the very request, protocol included, that the session of its id of the link's owner has sent, exactly if the host is at most 255 bytes long |
| WorldTheorems.BuffersAreSeparate | src/server.rs:113-114 | the frames decoded from a link and the bytes in its buffer are exactly the bytes delivered of that link |
| WorldTheorems.DecodersNeverFail | src/mux.rs:232-244 | no fragment of any client makes the server's decoder fail |
| WorldTheorems.ClosesPerClient | src/relay.rs:72-80 | for each client and session id each end enqueues at most one Close, and the server on a single one of the client's links |
| WorldTheorems.SameIdOnTwoLinks | src/mux.rs:146-150 | a possible world in which the server runs a session 1 for the links of two clients at once, for every chunk size that takes a short Connect in one piece |
| World.RunsAreSeparate | src/server.rs:130-214 | in any run, a client and the server's muxes for its links go through exactly the steps that concern them, whatever other clients do on theirs under the same ids |
| World.ViewIsReachable | src/server.rs:113-114 | what a client sees of a possible world is a reachable state of its own system |
| World.RunFits | src/server.rs:130-214 | conversely every run of one client's system is possible in the world, however far the other clients are, while the server is idle with regard to them |
| Theorems.UploadIsTransparent | src/relay.rs:37-80 | in every reachable state, what a server session has written to its target is a prefix, read by read and byte by byte, of what the client session of the same id has read from its socket (of datagrams, a subsequence) |
| Theorems.DownloadIsTransparent | src/relay.rs:37-80 | in every reachable state a client session has written nothing, or all its frames came over one link and what it wrote is a prefix of what the server session of the same id on that link has read |
| Theorems.WireCarriesWholeFrames | src/mux.rs:78-97 | in both directions, the bytes ever handed to a link are a prefix of the concatenated encodings of the consecutive frames whose link was read as that link |
| Theorems.ServerDecodingNeverFails | src/mux.rs:232-244 | whatever fragment reaches the server next, its reassembler does not take the decoding-failed branch, in any reachable state |
| Theorems.ClientDecodingNeverFails | src/mux.rs:232-244 | the same at the client, however failures race with reset and set_link_id |
| Theorems.UploadRefinesQueue | src/mux.rs:172-201 | one n for the whole link such that every session the server can deliver to has received exactly its own Data and Close frames among the first n frames the client enqueued, and every other session a prefix of them |
| Theorems.DownloadRefinesQueue | src/mux.rs:186-256 | one n such that every session the client can deliver to has received exactly its own frames among the first n that the server of the current link enqueued, and every other registered one a prefix of them |
| Theorems.HandshakeLosesNothing | src/client.rs:391-403 | the first frame a client session receives is its verdict; while waiting it has skipped nothing, and its relay starts right after the ConnectOk; a TCP session that has taken a ConnectOk relays, or closes and drops its registration |
| Theorems.OneVerdict | src/server.rs:225-258 | for each link and session id a server has enqueued nothing, or a single ConnectErr, or a ConnectOk followed only by Data and Close |
| Theorems.OneLinkPerSession | src/server.rs:171-202 | of one client's links, frames for a session id are enqueued by the server of one only, the link that carried the session's Connect |
| Theorems.ServerSessionsAreIsolated | src/server.rs:162-209 | a server session received the Data and Close frames of its id that the client put on its link after the Connect, in order, and none of this client's other links has a session of that id |
| Theorems.RequestsInOrder | src/server.rs:173-178 | the requests the server decodes from a link are, in order, a prefix of those the client started on that link |
| Theorems.EveryConnectIsAnswered | src/server.rs:173-202 | every Connect a server has routed is answered: a valid one by a session for just that request, TCP or UDP as it says, an invalid one by a single ConnectErr with the payload `invalid payload` |
| Endpoints.InvalidPayloadText | src/server.rs:200-201 | the bytes of that payload spell `invalid payload` |
| Theorems.RequestsReachTheServer | src/client.rs:387-388 | a server session is for the request that the client session of its id has sent, and that is preserved, with its protocol, exactly if the host is at most 255 bytes long |
| Theorems.VerdictIsTheServers | src/server.rs:225-258 | the first frame a client session receives is the server session's ConnectOk, or its ConnectErr with the reason given there, or the answer to a request that did not decode |
| Theorems.EndedSessionsSaidSo | src/relay.rs:72-80 | at both ends, a session that relays has enqueued its one, empty Close exactly if it is past closing, which it is only once a direction has ended; a session the server refused has enqueued its ConnectErr and nothing else |
| Theorems.RegistrationsAreExact | src/mux.rs:153-162 | a session is registered from its registration until it drops it or a reset clears it, and at no other time; after a relay, and always at a server, it is done exactly if it has dropped it; a TCP client that never relayed drops it only after a Close |
| Theorems.ServersForgetNothing | src/server.rs:217-293 | at a server a session is registered exactly until it is done |
| Theorems.RelaysRunToTheirEnd | src/relay.rs:37-70 | while a relay runs, a reader that has stopped has sent all it read, and a writer stops only for Close, for ConnectErr (TCP), for a failed write, or when its registration is gone and its channel empty; an abort costs at most one read |
| Theorems.AtMostTwoCloses | src/relay.rs:72-80 | each end enqueues at most one Close per session, and of one client's links at most one has a server that does: Close does not echo |
| Isolation.DroppedForGood | src/mux.rs:160-162 | from any invariant state along any run: a session once dropped is never registered again and its channel gets no further frame, nor does the channel of a session whose receiver is gone, at either end |
| Isolation.ResetIsolates | src/mux.rs:134-138 | from the moment a reset clears the sessions, those registered before it receive nothing more ever; sessions registered later receive only frames of their own id, and at that moment no frame of that id existed at either end |
| Isolation.ClosedLinkIsDeaf | src/server.rs:157-160 | a link that closes at the server ends none of its sessions, and not a byte of it reaches the server any more |
| Isolation.NoSessionBeforeLink | src/client.rs:177-184 | no connection gets a session id before a link has been up |
| Conversation.SessionsCanComplete | src/relay.rs:24-81 | for any read in each direction there is a run in which a session opens, each side writes what the other read, and both say Close once and are no longer registered |
| Conversation.SessionsCanBeRefused | src/server.rs:225-258 | for any reason there is a run in which the server refuses a session, the client learns the reason, and its registration stays |
| Conversation.SessionsCanTimeOut | src/client.rs:391-407 | there is a run in which a wait ends by the clock, and the registration stays |
| Conversation.SessionsCanBeAbandoned | src/client.rs:336-342 | there is a run in which a session ends before it has sent anything, and its registration stays |
| Backpressure.BackpressureBound | src/mux.rs:50-79 | in every reachable state and at every endpoint, of the TCP sessions' bytes at most 4096 for each of six frames and each of their waiting readers wait (4118 for all sessions together), and all bytes read are handed over, waiting, or dropped by an abort |
| Backpressure.EndpointBackpressure | src/relay.rs:37-51 | the conservation law and the bound for any endpoint that satisfies the invariant, any of its sessions and any limit on their single reads |
| SystemProofs.RunKeepsInv | src/client.rs:265-325 | the system invariant holds after every run from any state with the invariant |
| SystemProofs.StepKeepsInv | src/server.rs:130-214 | each of the seventeen kinds of step, of tasks, event loops and network, keeps the system invariant, which includes how every Connect was answered and when each session is registered |
| SystemProofs.ReceiveIsExact | src/mux.rs:207-256 | bytes that continue a prefix of encoded frames are reassembled without error, loss or duplication |
| SystemProofs.ConnectIsNew | src/server.rs:173-179 | a Connect that reaches a server is the first frame of its session there, so registering never replaces a session |
| SystemProofs.NothingBeforeConnect | src/client.rs:183-184 | before its Connect is enqueued no link brings a session any frame, so registering after allocating misses nothing |
| Invariant.UpFrames | src/mux.rs:207-256 | the frames a server routed and decoded are a prefix of the frames the client started on the link, and its buffer is the start of the next one |
| Invariant.DownFrames | src/mux.rs:207-256 | the same in the other direction, for the current link and for all earlier ones |
| Invariant.ConnectOpensTrace | src/client.rs:387-388 | nothing for a session is ever enqueued before its Connect |
| EndpointProofs.LocalKeepsInv | src/mux.rs:77-99 | every step of the sender task and of every session task keeps the endpoint invariant: queue contents and capacity, wire contents, session scripts |
| EndpointProofs.ReadLinkKeepsWire | src/mux.rs:79-85 | reading the link once per frame makes the frame the next one of that link's consecutive span |
| EndpointProofs.ChunkKeepsWire | src/mux.rs:87-97 | a chunk sent or refused, even after the link was changed, leaves each link with a prefix of whole frames |
| EndpointProofs.AttachKeepsInv | src/mux.rs:122-124 | a new link starts a span of its own with nothing on the wire |
| Sessions.StepKeepsSession | src/relay.rs:24-81 | every step of a session's tasks keeps its script (opener, Data, at most one Close), its reader's and its writer's account |
| Sessions.StepKeepsScript | src/client.rs:328-373 | the frames a session enqueues follow its phase: the request it was asked for or one verdict first, no Close before the relay has ended, and exactly one once it is past closing |
| Sessions.StepKeepsWriter | src/relay.rs:55-70 | what the writer is done with is what it received since the relay started, up to one failed write; of a byte stream it wrote all of that, of datagrams all but those it dropped |
| Sessions.WrittenFromInbox | src/relay.rs:55-70 | what was written is a prefix of the payloads of the frames received (of datagrams, a subsequence), if none of them came before the relay |
| SenderTask.StepsMatchLoop | src/mux.rs:87-98 | the sender task's steps hand over the same bytes as the chunk loop in one go, to the link that was read and no other, and clear the link exactly on a refusal |
| SenderTask.TurnMatchesLoop | src/mux.rs:77-99 | the sender task's steps for a frame do what a whole turn of the loop does, with and without a link |
| SenderTask.RefusalSparesOtherLinks | src/mux.rs:90-97 | a link just established stays current along every run without its close until it refuses a chunk itself, if and only if the sender task was not in the middle of a frame when it was established |
| SenderTask.LateFailureClearsNewLink | src/mux.rs:90-97 | a run, with a real Connect request, that ends with a fresh, working link cleared by a send that failed on the previous one |
| Frames.RoundTrip | src/frame.rs:89-127 | decoding an encoding followed by anything gives the frame and its length back if and only if the payload is at most 65535 bytes long |
| Frames.TruncationExample | src/frame.rs:90 | a frame with 65536 payload bytes decodes to one with none |
| Frames.DecodedReencodes | src/frame.rs:102-127 | whatever decodes re-encodes to exactly the bytes consumed, at least seven of them |
| Frames.DecodeExtends | src/frame.rs:102-127 | appending bytes changes neither a successful decode nor a failed one |
| Frames.ProperPrefixWaits | src/frame.rs:102-127 | every proper prefix of an encoding asks for more data |
| Frames.EncodeAllPrefix | src/frame.rs:89-127 | concatenations of frames are uniquely decodable: a prefix of the bytes is a prefix of the frames |
| Frames.EncodeFrame | src/frame.rs:89-98 | the step-by-step encoder computes the specified encoding, byte by byte: the type as 1 to 5 for Connect, ConnectOk, ConnectErr, Data and Close, id and length with the high byte first, the payload |
| Frames.FromU8 | src/frame.rs:38-47 | the bytes 1 to 5 are Connect, ConnectOk, ConnectErr, Data and Close, and no other byte is a type |
| Frames.DecodedLayout | src/frame.rs:102-127 | what a buffer decodes to, byte by byte and in numbers, with both error cases |
| Frames.U32ToBytes | src/frame.rs:94 | four bytes, most significant first, that decode back to the number |
| ConnectPayload.EncodeConnectPayload | src/frame.rs:141-154 | the step-by-step encoder computes the specified payload, byte by byte: host length, host, port with the high byte first, 128 for UDP and 0 for TCP |
| ConnectPayload.RequestLayout | src/frame.rs:157-169 | what a payload decodes to, byte by byte and in numbers, and when it is rejected |
| ConnectPayload.TextIsValid | src/frame.rs:165 | the UTF-8 encoding of any text is accepted as a host |
| ConnectPayload.ValidIsText | src/frame.rs:165 | and whatever is accepted as a host is the UTF-8 encoding of some text |
| ConnectPayload.RequestRoundTrip | src/frame.rs:141-169 | for a UTF-8 host, decoding gives host, port and UDP flag back if and only if the host is at most 255 bytes long |
| ConnectPayload.ProperPrefixRejected | src/frame.rs:176-180 | every proper prefix of an encoded request is rejected, which generalises the repository's test |
| ConnectPayload.RequestsArrive | src/server.rs:171-178 | through frames, any fragmentation and reassembly the server decodes a prefix of the requests sent, and all of them once all bytes are there |
| Reassembly.DrainConserves | src/mux.rs:211-248 | input bytes are exactly the emitted frames' encodings, the leftover and the discarded bytes |
| Reassembly.DrainConcat | src/mux.rs:211-248 | draining in two goes is draining in one, and after a failure the rest only adds to what is discarded |
| Reassembly.SettledIsShort | src/frame.rs:103-113 | what stays buffered is less than a header, or a known type whose payload is incomplete: at most 65541 bytes |
| Reassembly.BufferStaysSmall | src/mux.rs:207-256 | that bound holds after any number of fragments of any content |
| Reassembly.FragmentationInvariance | src/mux.rs:207-256 | without an unknown type byte, any cut into fragments, empty ones included, gives the frames and the leftover of a single call |
| Reassembly.EncodedFramesSurviveFragmentation | src/mux.rs:207-256 | any cut of a prefix of encoded frames gives a prefix of those frames, and all of them for all of the bytes |
| Reassembly.DamageIsLocal | src/mux.rs:232-244 | in a damaged stream the frames before the first bad header come out under every fragmentation, and from the fragment after the failure the reassembler runs like a new one |
| Mux.MuxHandle.constructor | src/mux.rs:108-119 | no link, no session, id counter 0, empty buffer and queue |
| Mux.MuxHandle.SetLinkId | src/mux.rs:122-124 | sets the link and nothing else |
| Mux.MuxHandle.ClearLinkId | src/mux.rs:127-129 | clears the link and nothing else |
| Mux.MuxHandle.Reset | src/mux.rs:134-138 | clears link, sessions and buffer, in the three parts that are three steps of the system; the id counter and the queue survive |
| Mux.MuxHandle.IsConnected | src/mux.rs:141-143 | tells whether a link is set |
| Mux.MuxHandle.NextSessionId | src/mux.rs:146-150 | the successor modulo 2^32 becomes the counter and the result |
| Mux.MuxHandle.RegisterSession | src/mux.rs:153-157 | maps the id to a new empty channel, replacing an older one |
| Mux.MuxHandle.DropSession | src/mux.rs:160-162 | removes the id and nothing else |
| Mux.MuxHandle.SendFrame | src/mux.rs:172-176 | appends the encoding to the queue if fewer than five frames are queued, and waits otherwise |
| Mux.MuxHandle.Dispatch | src/mux.rs:186-201 | the frame is appended to the live channel registered under its id; every other channel is unchanged |
| Mux.MuxHandle.ReceiveData | src/mux.rs:207-256 | the decode loop returns the drained frames and keeps the leftover, for any buffer and any data |
| Mux.MuxHandle.SendChunks | src/mux.rs:87-98 | the chunk loop hands over, in calls of full chunks and a last shorter one, exactly the bytes before the first refusal, to this link only, and succeeds exactly when they are all |
| Mux.ChunksAreFull | src/mux.rs:87 | the chunks are the data cut into pieces of the chunk size, except that the last may be shorter |
| Mux.MuxHandle.SenderTurn | src/mux.rs:77-99 | one frame leaves the queue; without a link it is dropped, and a refusal clears the link |
| Mux.Channel.Send | src/mux.rs:191-197 | a frame is queued exactly if the receiver is still there |
| Relay.TcpToRns | src/relay.rs:37-51 | each read becomes one Data frame in the queue, in order, until the socket ends or the queue is full |
| Relay.RnsToTcp | src/relay.rs:55-70 | the loop writes and takes what `Relayed` says of the frames in its channel |
| Relay.RelayedIsPayloads | src/relay.rs:55-70 | what is written are the payloads of the Data frames up to the first Close or ConnectErr or failed write, which goes out in part, and nothing else |
| Relay.RnsToUdp | src/relay.rs:252-294 | the loop of the UDP writers sends and takes what `RelayedUdp` says of the frames in its channel |
| Relay.UdpEnds | src/relay.rs:252-294 | a UDP writer goes on to the first Close or failed datagram and ignores ConnectErr |
| Relay.UdpIsPayloads | src/relay.rs:252-294 | what it sends are payloads of the Data frames it has taken, in order |
| Relay.UdpSendsAll | src/relay.rs:252-294 | all of them if no datagram is dropped |
| Relay.UdpSendsNothing | src/relay.rs:252-294 | none of them if all are |
| Loops.WriteStepsMatchLoop | src/relay.rs:55-70 | the writer's steps in the system take the frames the loop takes, write the same bytes and end when it does |
| Loops.DatagramStepsMatchLoop | src/relay.rs:252-294 | the writer's steps of a UDP session take, send and end as the loop does |
| Loops.ReadStepsMatchLoop | src/relay.rs:37-51 | the reader's steps put the same frames into the queue as the loop, and wait exactly if it waits |
| Loops.AwaitStepsMatchLoop | src/client.rs:391-403 | the steps of the wait take the frames the loop takes and end in the phase its verdict calls for |
| Loops.EndingMatchesFinish | src/relay.rs:79-80 | the last two steps of a session enqueue Close, as soon as there is room and not before, and then drop the registration |
| Loops.DispatchIsDeliver | src/mux.rs:186-201 | dispatching on the object changes its channels as delivering changes the sessions of the system |
| Relay.FinishRelay | src/relay.rs:79-80 | Close is enqueued as soon as there is room, and only then the session is dropped |
| Client.AwaitVerdict | src/client.rs:391-403 | returns the first verdict that comes before the timer fires or the channel is closed, and leaves everything after it in the channel |
| Client.AwaitedIsFirstVerdict | src/client.rs:391-403 | the wait takes frames up to the first verdict, which is its result, and all of them if there is none |
| Client.EstablishLink | src/client.rs:203-252 | false if create_link failed; otherwise true exactly if the first event that concerns the new link is its establishment; sets the link then and only then |
| Client.OnLinkData | src/client.rs:277-281 | each registered live channel gets exactly its own frames of the drained data, in order |
| Client.Reconnect | src/client.rs:292-324 | the first sleep is 0, each later one twice the one before, plus one if it was the link that failed, at most 30, and the loop ends with the first success |
| Client.DelayIsMonotone | src/client.rs:292-324 | within an episode the delay never decreases and never exceeds 30 |
| Client.DelayGrows | src/client.rs:301-323 | after k failed establishments the delay is at least min(2^k - 1, 30), exactly that if nothing else failed, and 0 exactly if k is 0 |
| Server.Server.OnLinkEstablished | src/server.rs:137-155 | an incoming link gets a new mux with that link set; a link the server initiated is ignored |
| Server.Server.OnLinkClosed | src/server.rs:157-160 | the link leaves the table and nothing else happens |
| Server.Server.OnLinkData | src/server.rs:162-171 | data goes into the buffer of its own link's mux, all other muxes are unchanged, and data of unknown links is ignored |
| Server.Server.OpenSession | src/server.rs:179-199 | registers a fresh channel under the id on this link only and starts a task with its receiving half |
| Server.Server.RouteConnect | src/server.rs:173-202 | a valid request opens a session; an invalid one enqueues a ConnectErr, waiting for room; no other link is touched |
| Server.Server.RouteOther | src/server.rs:203-207 | Data and Close go to the channel of their session on this link only; other frames are ignored |
| Server.Server.HandleLinkData | src/server.rs:162-209 | a whole LinkData event, for any bytes: every channel of the link receives its frames of the data drained with the link's own buffer, and no buffer, registration or channel of another link changes |
| Server.Server.HandleEvent | src/server.rs:130-214 | one event of any link leaves every link with the mux, buffer and channels that its own events call for |
| Server.Server.RunServer | src/server.rs:130-214 | the event loop, for any events of any links with any bytes: in the end every link has the mux, buffer and channels that its own events call for, whatever other links sent under the same ids |
| Server.FedSinceEstablished | src/server.rs:137-169 | what a link's mux has been fed are the fragments of this link since its establishment, in order |
| Server.InboundSinceConnect | src/server.rs:171-209 | the channel under an id holds exactly the Data and Close frames of that id that came after the last valid Connect for it |
| Server.ChannelsAreOwn | src/server.rs:130-214 | both together: a channel is determined by the bytes of its own link |
| SessionIds.IdsAreSerials | src/mux.rs:146-157 | after any run the i-th id issued is i modulo 2^32, and registrations stand under their own session's id |
| SessionIds.SameIdIffCongruent | src/mux.rs:146-150 | two allocations get the same id if and only if a multiple of 2^32 lies between them |
| SessionIds.OnlyWrappedIdsCollide | src/mux.rs:153-162 | registering or dropping takes another session's registration away if and only if a live session is a nonzero multiple of 2^32 allocations away |
| SessionIds.FirstCollision | src/mux.rs:148 | a run in which 2^32 further ids are issued while the first session is registered; registering or dropping the session that then gets its id takes the first one's registration away, and the first one's dying takes the new one's |
| SessionIds.RegistryIsMux | src/mux.rs:146-162 | the mux has issued the same id last and has the same ids registered as the registry in which sessions have serial numbers |
| Filter.AllowedIp | src/filter.rs:132-151 | the loop admits an address exactly if the last matching rule is an Include, and nothing without a matching rule |
| Filter.OneRule | src/filter.rs:52-90 | what a single rule admits, for each kind of address, port and protocol |
| Filter.PortTypeIsEnforced | src/filter.rs:183-197 | an Include for one TCP port of one address admits that socket address for TCP and nothing else |
| Filter.AddressRanges | src/filter.rs:57-64 | the private and loopback addresses as ranges of numbers |
| Filter.DecidesOnce | src/filter.rs:132-151 | at most one rule has the last word |
| Filter.CompileForward | src/main.rs:112-147 | the three loops build the Localhost rules for the TCP, UDP and common ports |
| Filter.ForwardIsExact | src/main.rs:112-147 | the forward list admits exactly the loopback addresses on a port listed for the protocol or for both, whatever order and duplicates |
| Filter.CompileServer | src/main.rs:28-60 | the server list admits exactly what the two block flags do not exclude |

## Left out

- Theorems.DownloadIsTransparent: says nothing about when bytes arrive. That all bytes eventually arrive, that a link close ends server sessions, or that every failed connect drops its session is not true of the code.
- Server.Server.RunServer: the session tasks are recorded, not run, and frames waiting to be sent are taken by the sender task only to make room; the tasks run in `System` and `World`.
- Server.Server.HandleLinkData: says nothing about the queue, where a ConnectErr may go; `Server.Server.RouteConnect` does.
- Loops.ReadStepsMatchLoop: the loops and the steps are compared for a task that nothing interrupts; interleavings are the business of `System`.
- The UDP header of section 7 of RFC 1928, its parsing, and the address gates of the UDP relays around it: payloads of UDP sessions are opaque, up to 22 bytes longer than a read, and a datagram may be dropped at the writer's choice.
- The shared client port of the UDP relay at the client: it only decides whether a datagram is dropped.
- The Reticulum node, identities, announces and path discovery; links are only their events.
- The SOCKS5 handshake, DNS resolution, sockets and logging: choices of the environment.
- Listeners and command-line parsing, apart from the rule lists and the order of allocation and registration; `connect_vec_merging_connect`, which only copies ports.
- The text of errors other than `invalid payload`, and the lossy conversion of the reason in a ConnectErr.
