# A verified model of the WSS tunnel

The program tunnels many TCP sessions over one WebSocket: a local HTTP proxy and its tunnel on one side, a session
manager that dials targets on the other.  This project models the protocol between them, the WebSocket under it, the
control messages in it, the address guard in front of the dialer and the hash behind the handshake, and proves what
they promise.

## How it is put together

| files | what they hold |
|---|---|
| `Common`, `Text` | bytes, byte order, bit operations, digits, splitting and joining |
| `WsFrame`, `WsReceive`, `WsEndpoint` | frames as bytes; what a read loop makes of a byte stream; the endpoint object with its loops, tied to that specification |
| `WsControl` | what an endpoint answers and how it ends: Pongs, fragments, streams that break off, the closing handshake, the byte examples of RFC 6455 |
| `WsWriters`, `WsClose`, `IpCount` | frame-by-frame interleavings of many writers; the closing of a connection, access by access; the per-address count over it |
| `JsonText`, `JsonScanner`, `JsonGrammar`, `JsonChars` | the scanner as functions; the scanner object; a grammar of object texts and what the scanner makes of each; what single escapes denote |
| `DataFrame`, `Protocol`, `Messages`, `Documented` | data frames; printing and reading of all messages, and a WebSocket as a FIFO channel for them; the hand-built texts; the texts of `docs/protocol.md` |
| `MuxClient`, `MuxServer` | every atomic step of the two ends of one connection |
| `MuxClientInv`, `MuxServerInv`, `MuxCross`, `Mux`, `MuxSafety` | the invariants of each end and between them, the transition system, and what holds of every state any run reaches |
| `MuxProgress` | the effect of each step in a reachable state, spelled out |
| `HalfClosing` | what becomes of the downstream once a session's proxy has gone |
| `Transport` | from the logs of the transition system to the byte stream of the WebSocket |
| `Tunnel`, `SessionManager`, `ManagerRuns`, `Epochs` | the two objects with their methods, tied to the steps; the manager's methods as runs of the transition system; the tunnel's life over many connections |
| `Ipv4`, `Ipv6`, `AddressTexts`, `Cidr`, `Ssrf`, `SsrfRanges` | address texts; exactly which texts are addresses; the prefix test, the guard; its verdicts as ranges of numbers |
| `Sha1`, `Sha1Bits`, `Sha1Hex`, `Sha1Abc` | the streaming hash; its operations bit by bit against RFC 3174; arithmetic on hexadecimal digits and, with it, the digest of "abc" |
| `Base64`, `Base64Examples` | Base64 against RFC 4648, the accept key; the alphabet and the RFC's test vectors |

The multiplexing protocol is a transition system.  `Mux.Action` lists the steps of the proxy threads, the tunnel, the
server's read loop (with `handleConnect` split at its locks and blocking calls), the idle sweep, `stop`, the reader
threads and the targets; `Mux.Run` takes any sequence of attempted steps from a fresh connection, so a statement about
`Run(maxSessions, actions)` for all `actions` is a statement about every reachable state.  A channel is the log of what
was written together with how much of it has been handled.  `Transport.UpstreamArrives` and `Transport.DownstreamArrives`
say why a WebSocket is one: with host names no longer than a request head, every message of every run is one the
frames carry, and the log is what the other end reads from the bytes.  The methods of `Tunnel.WssTunnel` and
`SessionManager.SessionManager` state their whole effect as compositions of the same step functions; `ManagerRuns` shows
that what the manager's methods do undisturbed is a run of the transition system, and `MuxProgress` and `ManagerRuns`
say in full what a step or a method does to the map, the sockets and the messages written.

Byte strings are sequences of integers below 256, or of characters one byte each.  `uint32_t`, `uint64_t` and `int`
wrap-around is written out where it occurs.

## Where the code and its descriptions differ

The model follows the code.

- `src/common/protocol.cpp:56-57` says that booleans and `null` are skipped safely.  As the last member of an object
  they are not: `skipValue` takes the closing brace with it and the object is refused
  (`JsonGrammar.LiteralSwallowsBrace`; `JsonGrammar.ParsesExactly` says exactly which texts are).
- `docs/protocol.md:56-71` lets the downstream survive a half-close.  The tunnel's `pushEnd` does, and so does the
  model; but the proxy closes the whole session as soon as its pump has ended (`src/client/local_proxy.cpp:289-294`).
  `HalfClosing.AnswerIsLost` gives the run in which the whole answer is lost, and `HalfClosing.ExitEndsDownstream` the
  exact condition: the downstream comes out complete if and only if it was complete when the proxy closed the session
  and the target sends no more.
- `handleControl` in `src/common/websocket.cpp:180-184` loads the state, then stores it.  A `terminate` in between is
  undone: a closed endpoint is closing again (`WsClose.ClosedCanReopenToClosing`).  `WsClose.BackwardExactly` shows
  that the state moves back in no other schedule, and no promise proved here depends on it.
- `docs/protocol.md:104-105` lists a failed write to the target and its silence among the errors.  The code reports
  them as `close`, with the reasons "target write failed" (`ManagerRuns.DataReaches`) and "target idle timeout"
  (`ManagerRuns.EofTells`).
- `::` is accepted in front of, between or behind eight explicit groups, where it stands for no group at all
  (`Ipv6.CompressedEqualsFull` with a total of eight).

## Model

| member | source | states |
|---|---|---|
| MuxSafety.UplinkPrefix | src/server/session_manager.cpp:192-208 | in every reachable state, what a target has received is a prefix of what its own session uploaded: rebuilt head, then the pump's reads in order |
| MuxSafety.UplinkConserved | src/client/local_proxy.cpp:244-288 | on a healthy link, unless the server is ending the session, received plus in flight plus held back in the proxy is exactly the upload: no byte is lost, doubled or reordered |
| MuxSafety.FinIsLast | src/server/session_manager.cpp:210-224 | a target that saw end of stream has received the whole upload, and the pump is done, so nothing can follow |
| MuxSafety.EofIsAnnounced | src/client/local_proxy.cpp:251-276 | end of file met by the pump, before or after the opening, has put a half-close upstream behind every uploaded byte |
| MuxSafety.HalfCloseReachesTarget | src/server/session_manager.cpp:210-224 | a half-close the server handled was always passed on to a connected target |
| MuxSafety.NothingDropped | src/server/session_manager.cpp:199-207 | a data message of a session in the map always reaches its socket: neither the no-socket nor the closed-uplink drop is ever taken |
| MuxSafety.DownlinkPrefix | src/server/session_manager.cpp:156-190 | what a session hands to `onData` is a prefix of what its own target sent, never another session's bytes |
| MuxSafety.TargetClosedIsComplete | src/client/tunnel.cpp:245-256 | a session that ended with "target closed" has delivered every byte its target sent |
| MuxSafety.StageMeaning | src/client/tunnel.cpp:237-268 | a callback sequence accepted by the automaton has `onOpen` first and at most once, `onData` only after it, `onClose` last |
| MuxSafety.SessionLifecycle | src/client/tunnel.cpp:204-268 | in every reachable state callbacks are in that order, a session is in the map exactly while not closed, and `onClose` has fired exactly when it has left |
| MuxSafety.ServerSessionsKnown | src/client/tunnel.cpp:338-359 | every server session is held by the client, has the client's `close` in flight, or is one whose connect has just failed |
| MuxSafety.ClientSessionsKnown | src/server/session_manager.cpp:69-154 | every client session is held by the server, has its `connect` unhandled, or has word of its end in flight or about to be written |
| MuxSafety.QuiescentAgreement | src/server/session_manager.cpp:226-272 | with both channels empty and nothing under way, both ends hold the same ids |
| MuxSafety.NoDuplicateId | src/server/session_manager.cpp:84-89 | a `connect` never meets an id the server has seen: "duplicate sessionId" is unreachable |
| MuxSafety.OneClosePerSession | src/server/session_manager.cpp:90-93 | the map never exceeds its limit and no session is reported closed twice |
| MuxSafety.SocketsAreOwned | src/server/session_manager.cpp:127-143 | a connected socket always belongs to a session in the map, to a close under way, or to the connect that dialed it |
| MuxSafety.TargetsMoveOn | src/server/session_manager.cpp:251-272 | over any step a socket is made at most once and closed at most once, and what a target received or sent only grows |
| MuxSafety.NothingRemains | src/server/session_manager.cpp:289-314 | once the manager has emptied its map and nothing is under way, no session and no connected socket is left |
| MuxSafety.DialedAddressesPassed | src/server/session_manager.cpp:109-127 | whatever the resolver answers, every address dialed is the first of a guard's list none of whose members is refused |
| Mux.StepKeeps | src/server/session_manager.cpp:69-314 | every step of either end keeps the invariant that spans both ends and both channels |
| Mux.RunHolds | src/client/tunnel.cpp:225-359 | the invariant holds after any sequence of attempted steps |
| MuxProgress.OpenConnects | src/client/tunnel.cpp:271-306 | opening writes one connect and enters the session if the link takes it, and does nothing otherwise |
| MuxProgress.ReadsGoOut | src/client/local_proxy.cpp:268-288 | a chunk read goes upstream at once when the tunnel is ready and waits in order otherwise; a failed push ends the session |
| MuxProgress.EofGoesOut | src/client/local_proxy.cpp:268-279 | end of file becomes a half-close at once, or is remembered until the opening |
| MuxProgress.ExitTells | src/client/local_proxy.cpp:289-294 | a proxy that leaves an open session closes it and tells the server once |
| MuxProgress.DownTells | src/client/tunnel.cpp:204-223 | a link that goes down ends every open session with an error and a close, and no other |
| MuxProgress.MessagesAreHandedOver | src/client/tunnel.cpp:237-268 | what each message of the server does to its session, exactly |
| MuxProgress.StrayMessagesAreIgnored | src/client/tunnel.cpp:229-235 | a message for a session the client does not hold does nothing |
| MuxProgress.OpeningFlushes | src/client/local_proxy.cpp:244-252 | `connected` sends everything that waited, in order, and the half-close if one waited |
| MuxProgress.ConnectIsAnswered | src/server/session_manager.cpp:82-94 | a connect is taken up if and only if the manager is open and below its limit, and answered with the limit's error when full |
| MuxProgress.HalfCloseIsPassedOn | src/server/session_manager.cpp:210-224 | a half-close of a held session shuts down its target's side and touches nothing else |
| MuxProgress.CloseIsTaken | src/server/session_manager.cpp:226-237 | the client's close takes the session out of the map without a word back |
| MuxProgress.GuardDecides | src/server/session_manager.cpp:109-125 | a refused host is answered with the guard's reason, a passed one is dialed at the first address the guard returned |
| MuxProgress.DialIsAnswered | src/server/session_manager.cpp:127-135 | the address checked is the address dialed; a failed dial is answered |
| MuxProgress.PublishDecides | src/server/session_manager.cpp:137-143 | a new socket is kept if and only if its session is still held and the manager open, and closed otherwise |
| MuxProgress.AnnounceTells | src/server/session_manager.cpp:145 | a kept socket is announced with one `connected` |
| MuxCross.ReceiveKeeps | src/client/tunnel.cpp:225-269 | handling any message from the server keeps the invariant |
| MuxCross.ReadKeeps | src/server/session_manager.cpp:69-237 | handling any message from the client keeps the invariant, however much of a data frame the target accepts |
| MuxCross.AllDelivered | src/server/session_manager.cpp:160-164 | when `close` with "target closed" is next, every byte of the target stands before it |
| MuxCross.ConnectFacts | src/client/tunnel.cpp:286-305 | nothing of a session is at the server before its `connect` is handled |
| MuxClientInv.PushAllEffect | src/client/local_proxy.cpp:249-250 | sending what waited is all or nothing: every chunk in order, nothing, or the session closed |
| MuxClientInv.OpenedKeeps | src/client/local_proxy.cpp:244-252 | `onOpen` sends exactly what waited, in order, then the waiting half-close, and nothing of it twice |
| HalfClosing.ClosedIsFinal | src/client/tunnel.cpp:225-269 | over any continuation of a run a closed session hears nothing more, and what its target sent only grows |
| HalfClosing.ExitEndsDownstream | src/client/local_proxy.cpp:289-294 | once the proxy has closed its session nothing more is delivered; the downstream is complete in the end if and only if it was complete then and the target sends no more |
| HalfClosing.AnswerIsLost | docs/protocol.md:56-71 | for every host the guard passes and every answer: after end of file on the local side the answer is lost whole, whatever happens afterwards |
| Epochs.OldSessionsAreSilent | src/client/tunnel.cpp:204-223 | a session of an earlier connection, used through the current `ws_` and map, changes nothing on the current connection: no frame, no entry |
| Epochs.EveryConnectionIsARun | src/client/tunnel.cpp:112-202 | every connection of a tunnel's life is a run of the transition system, and all sessions of an ended one are closed |
| Epochs.OneDownPerReady | src/client/tunnel.cpp:142-145 | `onDown` fires at most once between two calls of `onReady` |
| Tunnel.SomeDrawIsFree | src/client/tunnel.cpp:102-110 | by pigeonhole, among more consecutive draws than live sessions one id is free, also across the wrap |
| Tunnel.NextIsNew | src/client/tunnel.cpp:105-106 | within one turn of the counter the next id has not been used on the connection |
| Tunnel.DrawsDiffer | src/client/tunnel.cpp:106 | fewer than a full turn of draws never repeats an id |
| Tunnel.WssTunnel.AllocId | src/client/tunnel.cpp:102-110 | 0 exactly when the next `2 * maxSessions` ids are all live; otherwise an unused id in range, new on this connection within one turn |
| Tunnel.WssTunnel.OpenSession | src/client/tunnel.cpp:271-306 | succeeds exactly when ready, below the limit and on a healthy link; leaves nothing behind when it does not |
| Tunnel.WssTunnel.Push | src/client/tunnel.cpp:308-323 | its effect and result are those of the protocol's push step |
| Tunnel.WssTunnel.PushEnd | src/client/tunnel.cpp:325-336 | its effect is that of the protocol's half-close step |
| Tunnel.WssTunnel.CloseSession | src/client/tunnel.cpp:338-359 | its effect is that of the protocol's close step; a second call does nothing |
| Tunnel.WssTunnel.OnOpened | src/client/local_proxy.cpp:312-318 | the loop over the waiting chunks and the pending half-close perform the protocol's opening step |
| Tunnel.WssTunnel.PumpTurn | src/client/local_proxy.cpp:268-288 | one turn of the pump performs the protocol's read or end-of-file step |
| Tunnel.WssTunnel.AfterPump | src/client/local_proxy.cpp:289-294 | the proxy closes the session unless it is closed already |
| Tunnel.WssTunnel.Dispatch | src/client/tunnel.cpp:225-269 | handling a message performs the protocol's receive step |
| Tunnel.WssTunnel.OnText | src/client/tunnel.cpp:147-150 | a text that is no message changes nothing, any other performs that message's step |
| Tunnel.WssTunnel.OnBinary | src/client/tunnel.cpp:151-163 | a frame too short changes nothing, any other performs its data step |
| Tunnel.WssTunnel.OnDisconnected | src/client/tunnel.cpp:204-223 | the first call ends every session with its two callbacks, in any order of the map; further calls do nothing |
| Tunnel.WssTunnel.RunLoop | src/client/tunnel.cpp:112-202 | however attempts turn out, exactly these notices: `onReady` then `onDown` for each that connects, `onDown` for a failed one only if it is the first of all |
| SessionManager.ConnectIsARun | src/server/session_manager.cpp:69-154 | an undisturbed `handleConnect` is the message's step followed by the handler's own steps of the transition system |
| SessionManager.AfterInsertIs | src/server/session_manager.cpp:109-153 | a connect ends in exactly one of three ways: refused by the guard, refused by the dial, or joined with its announcement |
| SessionManager.CloseNowIs | src/server/session_manager.cpp:251-272 | a close drops the socket and the entry and reports once, or does nothing when the session is gone |
| SessionManager.ReleaseEachEffect | src/server/session_manager.cpp:297-304 | stopping closes every socket and reports every session exactly once, in the vector's order |
| SessionManager.SessionManager.HandleConnect | src/server/session_manager.cpp:82-154 | its effect is the composition of all its phases |
| SessionManager.SessionManager.CloseSession | src/server/session_manager.cpp:251-272 | its effect is the protocol's closing steps in one |
| SessionManager.SessionManager.HandleFrame | src/server/session_manager.cpp:192-208 | short frames change nothing, any other performs the data step and the close it may entail, and stamps `lastActive` of a session that takes it |
| SessionManager.SessionManager.HandleHalfClose | src/server/session_manager.cpp:210-224 | its effect is that of the protocol's half-close step, and the session counts as active |
| SessionManager.SessionManager.HandleClose | src/server/session_manager.cpp:226-237 | the session leaves without a report |
| SessionManager.SessionManager.SweepIdle | src/server/session_manager.cpp:239-249 | exactly the sessions whose last activity is longer ago than the limit are closed, each once |
| SessionManager.SessionManager.DestroyAll | src/server/session_manager.cpp:289-304 | the map is emptied at once and every session in it released and reported once |
| SessionManager.SessionManager.Stop | src/server/session_manager.cpp:40-48 | only the first call does anything |
| SessionManager.SessionManager.ReaderTurn | src/server/session_manager.cpp:156-190 | one turn of the reader thread performs the protocol's take-and-send, end, idle or exit step; only a chunk counts as activity, and only then or on a silence does the thread go on |
| ManagerRuns.DataIsARun | src/server/session_manager.cpp:192-208 | handling a data frame undisturbed is the message's step of the transition system, for every number of bytes accepted, followed by the release when the write fell short |
| ManagerRuns.DataReaches | src/server/session_manager.cpp:203-207 | the target of a held, connected, open session gets exactly the accepted bytes; a short write ends the session with "target write failed"; other sessions are untouched |
| ManagerRuns.DataIsIgnored | src/server/session_manager.cpp:193-203 | a frame for a session not held, not connected or past its half-close, or after the end, changes nothing |
| ManagerRuns.DuplicateIsRefused | src/server/session_manager.cpp:84-89 | a connect for an id that is held, were it to come, is answered with an error and leaves that session alone |
| ManagerRuns.TurnIsARun | src/server/session_manager.cpp:156-190 | one turn of the reader undisturbed is a run, for a chunk, end of file, silence of either length, a stopped manager and a closed socket |
| ManagerRuns.EofTells | src/server/session_manager.cpp:161-171 | when the target closes or has been silent too long, the client gets exactly one close with that reason, the session leaves and the socket is released |
| ManagerRuns.ChunkGoesOut | src/server/session_manager.cpp:174-188 | a chunk goes out as one data frame on a healthy link; on a failed one the session leaves without a word |
| ManagerRuns.ClientCloseIsARun | src/server/session_manager.cpp:226-237 | handling the client's close undisturbed is the message's step and the release |
| ManagerRuns.SweepIsARun | src/server/session_manager.cpp:239-249 | a sweep undisturbed is a run that closes and releases one idle session after the other |
| ManagerRuns.SweepReports | src/server/session_manager.cpp:248-272 | it releases each of them, reports each once in order, and leaves all others as they were |
| ManagerRuns.StopIsARun | src/server/session_manager.cpp:289-304 | stopping is a run that raises both flags, empties the map and releases what was in it |
| WsFrame.LengthRoundTrip | src/common/websocket.cpp:227-237 | each of the three length forms is read back as the length it was written for |
| WsFrame.FrameRoundTrip | src/common/websocket.cpp:64-93 | any stream that starts with an encoded frame parses to that frame, whatever follows, exactly when its payload is within the limit |
| WsReceive.ConsumeAll | src/common/websocket.cpp:64-103 | a stream of encoded frames acts frame by frame, whatever the keys |
| WsReceive.TrainArrives | src/common/websocket.cpp:253-269 | fragments of a binary message of any length are put together to that message |
| WsReceive.RoundTrip | src/common/websocket.cpp:105-125 | for any sends in either role, the other end's handlers get exactly those messages in order, then one close |
| WsReceive.CloseArrives | src/common/websocket.cpp:127-140 | messages before a Close are delivered, its code and at most 123 bytes of reason are learned, and nothing after it is read |
| WsReceive.CloseOne | src/common/websocket.cpp:179-192 | a Close of any length, met while open or closing, ends the loop: echoed with its own payload if it is the first, code and reason kept when there are any, the close handler fired |
| WsReceive.TextArrives | src/common/websocket.cpp:83-86 | a text reaches the other end's handler if and only if it is within the receiver's limit |
| WsControl.PingsAnswered | src/common/websocket.cpp:173-178 | once any stream of frames has been read, what the endpoint has written is one Pong for each Ping, with its payload, in order, and nothing else |
| WsControl.FragmentsArrive | src/common/websocket.cpp:253-275 | a text or binary message in any number of pieces of any sizes is handed over once, whole |
| WsControl.StrayIsDropped | src/common/websocket.cpp:255 | a continuation of nothing and a frame of unknown kind leave no trace |
| WsControl.CutShort | src/common/websocket.cpp:68-102 | a stream that breaks off at any byte inside a frame: all frames before it are handled, nothing of it is, the connection ends |
| WsControl.OversizedFails | src/common/websocket.cpp:83-86 | a frame over the limit ends the connection with an error, whatever follows |
| WsControl.OneEnding | src/common/websocket.cpp:64-103 | for every stream of bytes the endpoint is closed at its end and its close handler has been called exactly once |
| WsControl.CloseHandshake | src/common/websocket.cpp:127-140 | one end's close makes both ends closed, with one Close each way, the same code on both sides and one call of each close handler |
| WsControl.CloseAgain | src/common/websocket.cpp:128-137 | `close` while closing sends a second Close; after the end it does nothing |
| WsControl.RfcExamples | src/common/websocket.cpp:220-251 | the frames of section 5.7 of RFC 6455, byte for byte, masked and unmasked |
| WsEndpoint.Relay | src/common/websocket.cpp:64-125 | two endpoint objects, one sending through its loops and one reading with reads of any size: the messages arrive, and what comes back is one Pong for each Ping |
| WsEndpoint.Answers | src/common/websocket.cpp:173-178 | an endpoint object reading any frames to the end of the stream writes one Pong for each Ping, masked by its role, and nothing else |
| WsEndpoint.WsImpl.SendFrame | src/common/websocket.cpp:220-251 | the bytes written are one encoded frame, masked exactly by clients; data only while open |
| WsEndpoint.WsImpl.SendBinary | src/common/websocket.cpp:109-123 | the loop writes exactly the fragments of the message, or nothing |
| WsEndpoint.WsImpl.ReadFull | src/common/websocket.cpp:162-171 | the buffer is filled with the next bytes over any number of partial reads, or the stream ended short of it |
| WsEndpoint.WsImpl.ReadFrame | src/common/websocket.cpp:67-93 | header, extended length, key and unmasked payload are those of the frame at the front of the stream |
| WsEndpoint.WsImpl.DispatchFrame | src/common/websocket.cpp:253-275 | reassembly state and handler calls are those of the specification |
| WsEndpoint.WsImpl.HandleControl | src/common/websocket.cpp:173-193 | pings are answered, the first Close is echoed, its code and reason kept: the effect is that of `WsReceive.Control`, which `WsControl` spells out |
| WsEndpoint.WsImpl.RunReadLoop | src/common/websocket.cpp:64-103 | the loop's whole effect is that of consuming every byte the peer sends, for every stream of bytes, well formed or not |
| WsEndpoint.WsImpl.FailConnection | src/common/websocket.cpp:195-200 | closes once, reports an error if asked, and fires the close handler unless it has fired |
| WsEndpoint.WsImpl.CloseWith | src/common/websocket.cpp:127-140 | a Close with code and at most 123 bytes of reason goes out unless already closed |
| WsEndpoint.WsImpl.Terminate | src/common/websocket.cpp:142-146 | closed at once, without a frame, with the kept reason |
| WsWriters.InterleavedRoundTrip | src/common/websocket.cpp:151-156 | any interleaving with at most one fragmented message at a time is delivered intact, in the order of last frames |
| WsWriters.ThreadOrder | src/common/websocket.cpp:109-123 | each thread's messages arrive in the order it began them |
| WsWriters.DataMessagesAreWhole | src/server/session_manager.cpp:157-185 | a thread may send a data message at any moment, whatever fragmented message is open, if and only if it fits one frame, which 64 KiB does: any number of reader threads meets the hypothesis |
| WsWriters.TwoTrainsCorrupt | src/common/websocket.cpp:253-268 | two fragmented messages at once come out as one wrong message: the hypothesis is needed |
| WsClose.NoDataAfterClose | src/common/websocket.cpp:127-137 | in no interleaving does a data frame follow a Close frame |
| WsClose.ClosedOnce | src/common/websocket.cpp:277-281 | the close handler fires at most once, and has fired once the read loop has returned and no `terminate` is under way |
| WsClose.BackwardExactly | src/common/websocket.cpp:180-184 | the state moves back if and only if the read loop stores after a `terminate` that fell between its load and its store |
| WsClose.LoadIsStale | src/common/websocket.cpp:142-146 | once a `terminate` has fallen there the state stays closed until the store, and without one it is not closed |
| WsClose.ClosedCanReopenToClosing | src/common/websocket.cpp:180-184 | the interleaving in which it does move back |
| IpCount.CountIsLive | src/server/main.cpp:202-215 | in every reachable state the count of an address is the number of its connections counted and not yet closed |
| IpCount.NothingLeaks | src/server/main.cpp:262-328 | once every connection is over no address is left in the map: each increment has met exactly one decrement |
| IpCount.PerIpCount.IncIp | src/server/main.cpp:202-205 | the count of that address goes up by one, from nothing if it was absent |
| IpCount.PerIpCount.DecIp | src/server/main.cpp:206-215 | it goes down by one, and an address at one leaves the map |
| JsonGrammar.EscapeRoundTrip | src/common/protocol.cpp:29-52 | for every string, escaping gives a complete string body that denotes it |
| JsonGrammar.ScanBody | src/common/protocol.cpp:107-159 | the scanner reads any string body, escapes of every kind included, up to its quote and gets what it denotes |
| JsonGrammar.SkipTokens | src/common/protocol.cpp:169-193 | a nested value of any depth, brackets and quotes inside strings included, is skipped exactly past its closing bracket |
| JsonGrammar.ParsesExactly | src/common/protocol.cpp:62-90 | every object text, white space anywhere, parses to what its members denote, except that one ending in a bare literal does not parse |
| JsonGrammar.LiteralSwallowsBrace | src/common/protocol.cpp:181-192 | a bare literal in last place takes the closing brace and the object is refused |
| JsonGrammar.NestedIsTransparent | src/common/protocol.cpp:81-84 | a member with a fresh key and any nested value may stand anywhere and leaves every other member as it was |
| JsonChars.Utf8RoundTrip | src/common/protocol.cpp:137-149 | every escaped code point that is no surrogate becomes the shortest UTF-8 form of it, which reads back as that code point |
| JsonChars.CaseDoesNotMatter | src/common/protocol.cpp:126-134 | hexadecimal digits of either case denote the same code point |
| JsonChars.ShortEscapes | src/common/protocol.cpp:119-123 | the two-character escapes stand for the characters of RFC 8259 |
| JsonChars.EscapedIsPrintable | src/common/protocol.cpp:29-52 | no escaped string holds a control character |
| JsonScanner.Scanner.String | src/common/protocol.cpp:107-159 | value and index are those of the specification, on every text |
| JsonScanner.Scanner.Number | src/common/protocol.cpp:160-167 | the token handed on is the longest run of number characters |
| JsonScanner.Scanner.SkipValue | src/common/protocol.cpp:169-193 | result and index are those of the specification; the index never moves back or past the end |
| JsonScanner.Scanner.ParseObject | src/common/protocol.cpp:62-90 | the object is that of the specification, on every text, and the loop ends |
| JsonScanner.ParseControlMessage | src/common/protocol.cpp:198-205 | an object whose "type" is a non-empty string, or nothing |
| JsonScanner.JsonEscape | src/common/protocol.cpp:29-52 | the loop's output is the escaped string |
| Protocol.ConnectRoundTrip | src/server/session_manager.cpp:69-80 | for every id, host byte string and port, the server recovers exactly what the client asked for |
| Protocol.UpRoundTrip | src/server/main.cpp:284-312 | every message of the client is read by the server as that message |
| Protocol.DownRoundTrip | src/client/tunnel.cpp:225-268 | every message of the server is read by the client as that message |
| Protocol.GeneralRoundTrip | src/common/protocol.cpp:207-215 | for any bytes and any order of fields, type and fields are read back exactly if and only if the type is not empty and no field named "type" says otherwise |
| Protocol.UpstreamIsFifo | src/client/tunnel.cpp:296-321 | any list of client messages sent over a WebSocket is handled as that list, in order and complete |
| Protocol.DownstreamIsFifo | src/server/session_manager.cpp:55-67 | the same for the server's messages |
| Transport.RunFits | src/server/session_manager.cpp:109-153 | in every run with the tunnel's ids and ports and hosts of at most 64 KiB, every id, host, reason and error that is ever written keeps within the channel's limits |
| Transport.UpstreamArrives | src/client/tunnel.cpp:296-356 | so the WebSocket carries the client's whole log: the frames of it, whatever the keys, are read at the other end as exactly that log |
| Transport.DownstreamArrives | src/server/session_manager.cpp:55-67 | the same for everything the server writes |
| Messages.ConnectMessage | src/client/tunnel.cpp:296-298 | the concatenated text is the connect message's |
| Messages.HalfCloseMessage | src/client/tunnel.cpp:335 | the concatenated text is the half-close message's |
| Messages.CloseMessage | src/client/tunnel.cpp:355 | the concatenated text is the client's close message's |
| Messages.ConnectedMessage | src/server/session_manager.cpp:145 | the concatenated text is the connected message's |
| Messages.CloseReasonMessage | src/server/session_manager.cpp:269-270 | the concatenated text is the server's close message's, for any reason |
| Messages.ErrorMessage | src/server/session_manager.cpp:59-67 | the concatenated text is the error message's, for any message |
| Messages.ControlMessage | src/common/protocol.cpp:207-215 | the loop's text is that of the type and the fields in the order walked |
| Documented.ShortMessages | docs/protocol.md:38-80 | `connected`, `half-close` and `close` as documented, whatever white space stands between their parts, are read as those messages for every id |
| Documented.LongMessages | docs/protocol.md:74-92 | so are `close` with any plain reason and `error` with any plain message |
| Documented.ConnectMode | docs/protocol.md:17-36 | so is `connect`; the mode may be left out, and any other mode than the documented one is refused |
| Documented.DataLayout | docs/protocol.md:108-118 | a data frame is the four bytes of its id, the highest first, and the payload as it is |
| DataFrame.DataRoundTrip | src/common/protocol.cpp:10-24 | any id and payload come back from their frame |
| DataFrame.DecodedIsEncoded | src/common/protocol.cpp:17-24 | every frame of at least four bytes is the encoding of what it decodes to; shorter ones are refused |
| DataFrame.PutU32BE | src/common/util.hpp:17-22 | the first four bytes become the big-endian number, the rest stays |
| DataFrame.GetU32BE | src/common/util.hpp:25-28 | the number is that of the first four bytes |
| DataFrame.Encode | src/common/protocol.cpp:10-15 | the buffer holds the id, then the payload |
| DataFrame.Decode | src/common/protocol.cpp:17-24 | the split is that of the specification |
| Cidr.InBlock | src/common/ssrf.cpp:47-58 | the byte-and-mask loop holds if and only if the big-endian numbers agree after division by the power of two left over |
| Cidr.PrefixByBytes | src/common/ssrf.cpp:48-56 | numeric agreement is agreement of whole bytes and of the masked next byte |
| Ipv4.ParseIpv4 | src/common/ssrf.cpp:60-81 | accepts exactly four octets of one to three digits worth at most 255, and returns them |
| Ipv4.DottedRoundTrip | src/common/ssrf.cpp:180-182 | four bytes printed and parsed again are those bytes |
| Ipv6.Ipv6ToBytes | src/common/ssrf.cpp:85-155 | the loops compute the sixteen bytes of the specification, or refuse with it |
| Ipv6.CompressedEqualsFull | src/common/ssrf.cpp:102-138 | the `::` form and the fully written form denote the same bytes |
| Ipv6.MappedBytes | src/common/ssrf.cpp:92-100 | `::ffff:` in front of a dotted quad, through its hexadecimal rewriting, denotes that quad's mapped address |
| AddressTexts.OnlyQuads | src/common/ssrf.cpp:60-81 | a text is a dotted quad if and only if it is four octets of one to three digits worth at most 255 with dots between them |
| AddressTexts.OnlyGroups | src/common/ssrf.cpp:102-154 | a text of hexadecimal digits and colons is an address if and only if it is eight groups, or up to eight with one `::` |
| AddressTexts.ZoneIsIgnored | src/common/ssrf.cpp:87-90 | a zone id changes nothing |
| AddressTexts.MixedTexts | src/common/ssrf.cpp:92-100 | a dotted quad at the end stands for its two hexadecimal groups, within the limit of 45 characters |
| Ssrf.IsBlockedIp | src/common/ssrf.cpp:165-191 | the recursion through print and re-parse gives the specified verdict and block |
| SsrfRanges.DottedQuadRefused | src/common/ssrf.cpp:25-35 | a dotted quad is refused if and only if its number lies in one of nine ranges given by first and last address, and the block named is that range's |
| SsrfRanges.Ipv6Refused | src/common/ssrf.cpp:38-45 | an IPv6 address that is not a mapped one is refused if and only if its number lies in one of six ranges, and the block named is that range's |
| SsrfRanges.MappedRefused | src/common/ssrf.cpp:174-183 | a mapped address is judged by the nine ranges on its last four bytes |
| SsrfRanges.LiteralsAreAddresses | src/common/ssrf.cpp:157-163 | a host is a literal if and only if it denotes an address of either kind |
| SsrfRanges.GroupAppends | src/common/ssrf.cpp:140-155 | a group of an address is a digit in base 65536, the first the highest |
| SsrfRanges.RefusalNamesBlock | src/common/ssrf.cpp:196-219 | a refusal names the block of the literal, or that of the first answer refused, or what the resolver threw |
| Ssrf.MappedSameVerdict | src/common/ssrf.cpp:174-183 | the mapped form has the verdict and block of the quad |
| Ssrf.CompressedSameVerdict | src/common/ssrf.cpp:184-187 | the compressed form has the verdict and block of the full form |
| Ssrf.GuardTarget | src/common/ssrf.cpp:193-223 | the loop's answer is that of the specification, for every resolver answer |
| Ssrf.GuardPasses | src/common/ssrf.cpp:193-223 | the guard passes if and only if the host is an unrefused literal or a name whose answers are non-empty and all unrefused, and returns exactly those |
| Sha1.Hasher.ProcessBlock | src/common/sha1.cpp:22-60 | schedule and rounds are those of section 6.1 of RFC 3174 |
| Sha1Bits.RoundFunction | src/common/sha1.cpp:35-47 | bit by bit: rounds 0 to 19 choose, 40 to 59 take the majority, all others the parity |
| Sha1Bits.RolBit | src/common/sha1.cpp:8 | a rotation by n moves the bit at k to (k + n) mod 32 |
| Sha1Bits.Constants | src/common/sha1.cpp:35-47 | the four constants are the integer parts of 2^30 times the roots of 2, 3, 5 and 10 |
| Sha1Bits.InitialWords | src/common/sha1.cpp:12-18 | the initial words are the three byte runs of the RFC |
| Sha1Bits.RoundMoves | src/common/sha1.cpp:48-53 | a round moves five words down and puts the sum of five modulo 2^32 on top |
| Sha1Abc.DigestOfAbc | src/common/sha1.cpp:22-93 | padding, schedule, all eighty rounds and the output give the digest of "abc" printed in RFC 3174 |
| Sha1.Hasher.Update | src/common/sha1.cpp:62-76 | whatever the split, the state is the fold of the whole blocks fed so far and the buffer holds the rest |
| Sha1.Hasher.PadToLength | src/common/sha1.cpp:80-83 | from every fill the padding loop ends with exactly the length missing |
| Sha1.Hasher.Final | src/common/sha1.cpp:78-93 | the digest is that of the padded message |
| Sha1.HashPieces | src/common/sha1.cpp:62-93 | a message handed over in any pieces hashes to the digest of the whole |
| Sha1.FoldConcat | src/common/sha1.cpp:64-75 | folding whole blocks in two runs is folding them in one |
| Sha1.PadIsWhole | src/common/sha1.cpp:79-86 | padding gives a whole number of blocks |
| Sha1.PadInjective | src/common/sha1.cpp:79-86 | different messages have different padded forms |
| Base64.Base64Encode | src/common/base64.cpp:16-43 | the loop writes the encoding, padding included |
| Base64.Base64Decode | src/common/base64.cpp:45-60 | succeeds exactly on symbols and white space before the first `=`, and returns their whole bytes |
| Base64.RoundTrip | src/common/base64.cpp:16-60 | the sextets of an encoding are read back, and give the bytes back |
| Base64.EncodeThenDecode | src/common/base64.cpp:16-60 | the two loops compose to the identity |
| Base64Examples.Alphabet | src/common/base64.cpp:5-13 | the 64 symbols in order, each read back as its place |
| Base64Examples.TestVectors | src/common/base64.cpp:16-43 | the test vectors of section 10 of RFC 4648 |
| Base64.AccumulateStep | src/common/base64.cpp:52-57 | in the 32-bit accumulator, however it has wrapped, each symbol completes the right byte |
| Base64.WrapLow | src/common/base64.cpp:52-56 | wrapping touches none of the bits that are ever read |
| Base64.AcceptKey | src/common/websocket.cpp:213-218 | the accept key is the encoded hash of the key followed by the GUID of section 1.3 of RFC 6455, 28 symbols long |

## Left out

- Sockets, TLS, DNS, WinHTTP, threads and clocks are parameters or nondeterministic steps; the HTTP upgrade exchange, `readUntil` (it discards what follows the delimiter, so uplink statements start at the pump's reads), URL and header parsing, configuration, the updater, back-off delays and logging are not modelled.
- The steps of the protocol are atomic at the granularity of callbacks: `openSession` with its callbacks attached, `onOpen` with its flush, `handleData`, `handleHalfClose` and one turn of a reader are one step each; setting `opened` before flushing `pending`, or attaching callbacks after `openSession` returns, is not split further.
- `sendFrame` checks the state and writes in one step, and `emitClose` tests and sets its flag in one step; the source does neither atomically.
- A write that fails puts nothing on the stream; a partial frame in front of a broken stream is not modelled.
- Session ids are not reused while one connection lasts, which `Tunnel.WssTunnel.AllocId` guarantees for fewer than 0xfffffffe draws; longer connections are not covered by the end-to-end statements.
- Session objects are records in a map of the object that owns them; sharing of one heap object between threads is modelled by the steps, not by references.
- The order in which a map is walked is an arbitrary vector.
- `connect` messages the client never sends (id 0, other modes, missing fields) and the "unknown type" answer are not part of the transition system; `Protocol.ReadUp` reads them as no message.
- Tunnel.WssTunnel.OnText: a number that is not plain digits below 2^32 makes the message no message, where the source casts whatever `strtod` returns; the server prints ids as plain digits.
- Hosts longer than the 64 KiB a request head may have, and resolver errors longer than that, are outside `Transport.UpstreamArrives` and `Transport.DownstreamArrives`.
- `connectOverride` is unset; `bufferedBytes`, back-pressure and worker reaping are stubs in the source.
- Numbers are kept as the token handed to `strtod`, which is taken to be exact on decimal digits below 2^32; other number forms have no value in the model.
- A hard upper bound on connections per address is not claimed: check and increment are separate steps in the source.
- `WssTunnel::close` at shutdown is covered as a disconnection; its loop over `sessions_` finds the map empty.
- Sha1.Hasher.Final: claimed for messages shorter than 2^61 bytes, whose bit length fits its eight bytes.
