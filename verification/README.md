# Relaycat: a verified model

Relaycat lets a client reach a TCP service behind an agent. Both connect outwards to a relay by gRPC:
the agent registers a route and waits, a client opens a tunnel to that route, the relay notifies the
agent, the agent accepts, and the relay forwards ciphertexts both ways. Client and agent run a Noise
handshake keyed by a shared connection code and then a half-close-aware byte tunnel over it. Around
this core the program keeps an SSH host key and a state file on disk and installs systemd units.

The project models these parts in Dafny and proves what they keep over all inputs and all runs.
`dafny verify dfyconfig.toml` checks everything.

## How it is organised

| part | modules |
|---|---|
| relay broker: shared state, handlers, transition system | `Messages`, `RelayShared`, `RelayHandlers`, `Broker` |
| broker: accounting, registration, routing | `BrokerInvariants`, `BrokerSafety`, `BrokerTheorems` |
| broker: forwarding | `BrokerFlow`, `BrokerFlowSafety`, `BrokerFlowTheorems` |
| broker: byte counters, with one run worked out | `BrokerBytes`, `BrokerExample`, `Sums` |
| broker: who is admitted, what every call returns | `BrokerAdmission`, `BrokerCodes` |
| broker: teardown | `BrokerTeardown` |
| broker: the `Service` object, updated in place | `RelayService` |
| client, relay and agent composed | `Tunnels`, `TunnelsSafety`, `TunnelsTheorems`, `TunnelsProgress` |
| handshake, ciphers, frames | `Noise`, `PlainFrames` |
| tunnel endpoint | `Bridge`, `BridgeLoops`, `BridgeOutcomes`, `BridgeTeardown` |
| endpoints over an arbitrary relay | `EndToEnd`, `EndToEndReach` |
| two endpoints over lossless streams | `Progress` |
| two endpoints over the relay of `Broker` | `Relayed`, `RelayedProgress` |
| byte forms of hellos and ciphertexts, for the two compositions with the relay | `TermCodec` |
| agent reconnect loop | `AgentLoop` |
| publish-once files | `Files`, `HostKey`, `UnitInstall`, `StateFile` |
| connection code | `Wire`, `Base64Url`, `ConnectionCode` |
| systemd unit | `SystemdQuote`, `SystemdUnit` |

Concurrent parts are transition systems: one step is one locked region, one channel rendezvous, one
stream or file operation, one `select` exit or one deferred clean-up, and every theorem quantifies over
all interleavings of any number of callers. The state also records histories (frames and payloads received,
sent and handed over, bytes read) so that theorems can speak about them; a step reads of them only what the
program itself still holds at that point, such as the first frame of a call. Code that updates
objects or runs loops is also given as classes and methods, each proved to do exactly what the
transition functions say: `RelayService.Service` for the locked regions, `BridgeLoops` for `sendLoop`,
`recvLoop` and the transport objects, `AgentLoop.RetryLoop`, `SystemdQuote.SystemdQuote`.

Blocking calls, timers, random numbers and failures of the operating system are events that may happen
whenever the call allows it. In `EndToEnd` the relay is an adversary: it may drop, repeat, reorder,
invent and mix messages of all sessions, but cannot make messages under a pre-shared key it lacks.

Where the relay carries hellos or ciphertexts as bytes, the theorems hold for every coding from which the
terms can be read back; `TermCodec` gives one.

## Findings

Properties one might expect of the code that do not hold, each with its exact condition.

- `internal/relay/service.go:261-263` and `280-282`: the byte counters are added to after the hand-over, so
  they can lag behind what was already sent on (`BrokerExample.CounterCanLag`). They are exact if and only
  if no pump is between the two with a payload that is not empty (`BrokerBytes.CountersMatchHandovers`).
- `internal/endpoint/agent.go:50-67`: the reconnect delay is never reset. After five lost registrations
  every later one waits thirty seconds, also after a registration that worked (`AgentLoop.DelayNotReset`,
  `AgentLoop.DelaysDouble`).
- `internal/accesscode/code.go:140-151`: a state file whose writer fails or crashes midway stays undecodable;
  no later caller replaces it (`StateFile.TornReachable`, `StateFile.TornFileNeverLoads`). Once the
  writer has ended, others load its code if and only if all but the last byte was written
  (`StateFile.LoadsIffNotTorn`).
- `internal/winservice/service_linux.go:99-108`: a description ending in an odd number of backslashes
  swallows the line after it, so that the unit no longer asks for the network
  (`SystemdUnit.BackslashHidesNextLine`). The lines are read as meant if and only if that number is even and
  the description holds no NUL (`SystemdUnit.UnitReadsBack`).
- `internal/winservice/service_linux.go:141-143`: a word holding a NUL cannot be read back from a unit; every
  other word can (`SystemdQuote.CommandRoundTrip`).
- `internal/tunnelcrypto/noise.go:17-21`: the prologue joins route and session without their lengths, so it
  separates them if and only if the route lengths are equal or the total lengths differ
  (`Noise.PrologueSeparatesIff`). The program's own callers check 16 bytes each, which meets this
  (`Noise.PrologueInjective`).

## Model

| member | source | states |
|---|---|---|
| RelayShared.NewConfig | internal/relay/service.go:54-65 | a positive limit is kept as given; any other becomes 1000 agents or 128 tunnels |
| BrokerSafety.StepInv | internal/relay/service.go:67-249 | every action of every handler keeps the accounting, registration, session, routing and no-orphan invariants |
| BrokerSafety.RunInv | internal/relay/service.go:67-249 | the invariants hold after every run |
| BrokerTheorems.ExactAccounting | internal/relay/service.go:125-155 | in every reachable state each agent object's counter, also after it left the map, equals the number of calls holding its reservation and stays between zero and the limit; the tunnel gauge counts the counted calls; the sessions map lists exactly the calls between insertion and deferred delete |
| BrokerTheorems.RegistrationUnique | internal/relay/service.go:74-103 | the agents map is in bijection with the calls between insertion and clean-up, never exceeds the limit and equals its gauge |
| BrokerTheorems.CleanupGuardTrue | internal/relay/service.go:89-103 | the clean-up always finds its own entry, removes exactly that, and closes `done` once |
| BrokerTheorems.NoOrphanTunnels | internal/relay/service.go:89-174 | a listed call past notification whose session is not cancelled has a still-registered agent |
| BrokerTheorems.NotificationsFollowRoutes | internal/relay/service.go:104-158 | each notification sent on an agent's stream comes from a different call, one that opened exactly that agent's route, and carries that call's session and hello |
| BrokerTheorems.QuiescentIsEmpty | internal/relay/service.go:67-249 | when all handlers have returned, both maps are empty and all gauges and counters are zero |
| BrokerAdmission.RegisterIff | internal/relay/service.go:67-87 | in every reachable state a request becomes registered if and only if it has version 1, a route of 16 bytes that no registered call has, and fewer calls than the limit are registered; `FailedPrecondition`, `InvalidArgument`, `ResourceExhausted` and `AlreadyExists` exactly for the first of these to fail, in this order |
| BrokerAdmission.ReserveIff | internal/relay/service.go:125-129 | in every reachable state a `Connect` gets the agent registered for its route if and only if fewer calls than the limit hold it; `Unavailable` exactly if no call is registered for it, `ResourceExhausted` exactly if its agent is full |
| BrokerAdmission.AttachIff | internal/relay/service.go:206-217 | in every reachable state an `Accept` finds the `Connect` call that has its session listed, and `NotFound` exactly if there is none |
| BrokerCodes.ExitIff | internal/relay/service.go:116-195 | in every reachable state a step makes a `Connect` leave with a code if and only if it is an exit for it: bad frame, broken stream, failed random source, offline or full agent, agent gone while notifying, context done, timer, or a report of its pump |
| BrokerCodes.CodeKept | internal/relay/service.go:131-195 | no deferred step of anybody changes the code a `Connect` leaves with |
| BrokerCodes.ConnectCodeIff | internal/relay/service.go:116-195 | over all runs a `Connect` returns a code if and only if some earlier step was an exit for it |
| BrokerCodes.PumpStoppedIff | internal/relay/service.go:251-268 | over all runs a client's pump stopped for end of stream, a broken stream, a bad frame or the context if and only if the run holds that event |
| BrokerCodes.ConnectOkIff | internal/relay/service.go:186-190 | over all runs a `Connect` returns without error if and only if its stream ended cleanly and its loop then took the pump's report |
| BrokerCodes.AcceptExitIff | internal/relay/service.go:197-233 | the same table for `Accept`: the end of the session's context and of the stream are no error, everything else has its own code |
| BrokerCodes.AccCodeKept | internal/relay/service.go:215-232 | an `Accept` on its way out keeps its code |
| BrokerCodes.RegisterExitIff | internal/relay/service.go:104-113 | a registered call leaves in a step if and only if its stream's context is done at its `select`, or the send of a notification fails |
| BrokerCodes.StreamsAreFree | internal/relay/service.go:104-287 | no step rests on a stream behaving: a frame, an end, a failure or a completed send is possible exactly where a call or pump waits for it |
| BrokerFlowSafety.StepFlow | internal/relay/service.go:116-287 | every action keeps the frame-order, attachment and forwarding invariants |
| BrokerFlowSafety.RunFlow | internal/relay/service.go:116-287 | these invariants hold after every run |
| BrokerFlowTheorems.FirstAcceptWins | internal/relay/service.go:156-211 | a client is sent a prefix of its session, one acceptance, ciphertexts; the acceptance only after the agent's loop took the notification, with the non-empty hello of the first `Accept` that found the session |
| BrokerFlowTheorems.HelloNeverChanges | internal/relay/service.go:206-211 | once a session is ready no action changes its hello |
| BrokerFlowTheorems.LateSessionNeverNotifies | internal/relay/service.go:152-165 | a session that comes to notifying after its agent disappeared is never notified in any later run: it waits or leaves, and its client is sent nothing after the session identifier |
| BrokerFlowTheorems.ForwardingToAgents | internal/relay/service.go:216-268 | what the client's pump received, less at most one payload, is an interleaving of what the attached `Accept` calls sent, hold or failed to send, each holding at most one |
| BrokerFlowTheorems.ForwardingToClient | internal/relay/service.go:178-287 | what the client was sent or is being sent is an interleaving of what the attached agents' pumps handed over, each pump holding at most one |
| BrokerFlowTheorems.SingleAcceptIsFifo | internal/relay/service.go:178-287 | with one attached `Accept` each direction is a first-in first-out prefix with at most two payloads held |
| BrokerFlowTheorems.EofMeansHandedOver | internal/relay/service.go:251-268 | `recvClient` reports end of stream only when everything received has been handed over |
| BrokerFlowTheorems.AgentEofMeansHandedOver | internal/relay/service.go:270-287 | the same for `recvAgent` |
| BrokerFlowTheorems.ConnectOkMeansHandedOver | internal/relay/service.go:180-195 | a `Connect` that returns without error, which by `BrokerCodes.ConnectOkIff` is each one whose client closed its stream and whose loop took that, received only ciphertexts after its handshake and handed all of them over |
| BrokerBytes.CountersMatchHandovers | internal/relay/service.go:261-283 | in every reachable state each byte counter plus the payloads handed over and not yet counted equals the sum of what the receiving calls took; the counter alone does exactly if no pump holds an uncounted payload that is not empty |
| BrokerBytes.EofMeansCounted | internal/relay/service.go:251-287 | each counter is the sum over pumps of what they have counted, and a pump that reported end of stream has counted everything it received |
| BrokerExample.CounterCanLag | internal/relay/service.go:261-263 | a reachable state in which the agent was sent a byte that the counter lacks |
| BrokerTeardown.ReportingHasRoom | internal/relay/service.go:178-217 | a pump about to report finds its one-slot channel empty |
| BrokerTeardown.QuietDescends | internal/relay/service.go:67-287 | every action that brings no call and no frame from outside and changes the state lowers a measure |
| BrokerTeardown.QuietPossible | internal/relay/service.go:67-287 | until all handlers have returned and all pumps exited some such action is possible |
| BrokerTeardown.TeardownFinishes | internal/relay/service.go:67-287 | from every reachable state, every run in which nothing comes from outside is bounded, and one that cannot go on has ended with all handlers returned, all pumps exited, empty maps and zero counters |
| BrokerTeardown.CancelledConnectReturns | internal/relay/service.go:138-195 | once the context of a listed session is done, after any further run its `Connect` has returned unless a step of the handler alone is left, and then its pump has exited unless a step of the pump alone is left; a pump in `Recv` waits for no more than the handler's return |
| BrokerTeardown.CancelledAcceptReturns | internal/relay/service.go:215-232 | the same for every `Accept` attached to the session |
| BrokerTeardown.ConnCanExit | internal/relay/service.go:116-195 | every `Connect` whose context is done and that has not ended has an enabled step, a failing stream operation included, that needs no partner and no frame |
| BrokerTeardown.AccCanExit | internal/relay/service.go:197-233 | the same for every `Accept`, attached to such a session or to none |
| BrokerTeardown.RegCanExit | internal/relay/service.go:67-114 | the same for every `RegisterAgent` |
| BrokerTeardown.CanAlwaysComeToRest | internal/relay/service.go:67-287 | from every reachable state some run ends with all handlers returned and all pumps exited |
| RelayService.Service.constructor | internal/relay/service.go:54-65 | a new service has empty maps and positive limits |
| RelayService.Service.ListAgent | internal/relay/service.go:74-87 | the in-place region equals the transition system's, whose answers `BrokerAdmission.RegisterIff` fixes: capacity first, then duplicates, then insertion with the gauge |
| RelayService.Service.CancelLoop | internal/relay/service.go:96-100 | the loop over the sessions map cancels exactly the listed sessions of this agent object |
| RelayService.Service.UnlistAgent | internal/relay/service.go:89-101 | the deferred region as a whole: entry, gauge, `done` and the listed sessions change exactly as in the transition system |
| RelayService.Service.ReserveAgent | internal/relay/service.go:235-247 | offline, full or reserved as in the transition system, whose answers `BrokerAdmission.ReserveIff` fixes, with only that agent's counter raised |
| RelayService.Service.ReleaseAgent | internal/relay/service.go:249-249 | only that agent's counter is lowered, also after it left the map |
| RelayService.Service.NewSession | internal/relay/service.go:138-139 | a new session object that is not listed yet, not cancelled, not ready |
| RelayService.Service.InsertSession | internal/relay/service.go:152-154 | the session is listed under its identifier and nothing else changes |
| RelayService.Service.DeleteSession | internal/relay/service.go:155-155 | its identifier is unlisted and nothing else changes |
| RelayService.Service.Cancel | internal/relay/service.go:138-140 | only this session's context is cancelled |
| RelayService.Service.Attach | internal/relay/service.go:206-214 | the session found under the lock gets hello and `ready` the first time only |
| TunnelsSafety.NextOk | internal/endpoint/client.go:87-150 | every move of a client, the relay or an agent keeps the composed invariant: no frame lost or out of order on any stream, each program where its frames say |
| TunnelsSafety.FinishWorks | internal/endpoint/client.go:110-121 | whenever an acceptance reaches a client its handshake completes, with keys complementary to the tunnel that made it |
| TunnelsTheorems.SessionProtocolRespected | internal/endpoint/client.go:87-145 | in no reachable state has a client failed, or any relay handler or pump taken an invalid-frame branch; an agent tunnel fails only on the handshake |
| TunnelsTheorems.ReplyIff | internal/endpoint/agent.go:95-102 | each agent tunnel serves one client that asked for this agent's route; answering works exactly if their keys are equal, a tunnel that has answered shares its client's key, and one that has failed does not |
| TunnelsTheorems.BridgesPaired | internal/endpoint/client.go:110-122 | a client running its bridge has the first acceptor's tunnel at the other end, with complementary keys |
| TunnelsTheorems.OneAcceptPerSession | internal/endpoint/agent.go:76-110 | honest agents attach at most one `Accept` to a session |
| TunnelsTheorems.TunnelIsFifo | internal/endpoint/agent.go:103-118 | through the relay an agent is sent a prefix of its client's ciphertexts, and the client a prefix of the agent's |
| TunnelsProgress.TunnelCanBeJoined | internal/endpoint/client.go:87-122 | in every reachable state of clients, relay and agents, a new client that asks for the route of a registered, waiting agent with room and uses its key can be joined to it in nineteen moves, whatever the others are doing: both bridges run with complementary keys over two calls that forward between them |
| Noise.PrologueInjective | internal/tunnelcrypto/noise.go:17-21 | for routes of one length, equal prologues mean equal route and session |
| Noise.PrologueSeparatesIff | internal/tunnelcrypto/noise.go:17-21 | for routes and sessions of four given lengths, the prologue separates them if and only if the route lengths are equal or the total lengths differ |
| Noise.PrologueBytes | internal/tunnelcrypto/noise.go:17-21 | a prologue is the text `relaycat/v1`, the route and the session |
| Noise.RespondAcceptsIff | internal/tunnelcrypto/noise.go:33-70 | an agent accepts a client's hello exactly if pre-shared key, route and session are equal |
| Noise.HandshakeCompletes | internal/tunnelcrypto/noise.go:33-70 | with equal parameters the two ends get complementary transports, with different keys each way |
| Noise.SharedKeyMeansAgreement | internal/tunnelcrypto/noise.go:33-70 | whatever hellos were delivered, ends sharing one direction's key agree on key, route and session and share the other direction's key |
| PlainFrames.FrameRoundTrip | proto/relay/v1/relay.proto:76-97 | every frame that is sent is read back as itself |
| PlainFrames.FrameBytes | proto/relay/v1/relay.proto:76-90 | the bytes of each frame: data is 0a, length and data; half-close is 12 00; close is 1a, length, and inside 08 and code, 12, length and message, each left out when zero or empty |
| PlainFrames.NormalCloseBytes | proto/relay/v1/relay.proto:86-93 | the normal close is 1a 02 08 01 |
| PlainFrames.LastBodyWins | proto/relay/v1/relay.proto:76-90 | of several bodies in one message the last counts, a field of another number or kind changes nothing, and bytes that are no message are refused |
| PlainFrames.CloseMeans | proto/relay/v1/relay.proto:86-89 | of a close the last code, cut to 32 bits, and the last message count, and every message must be UTF-8 |
| Bridge.StepOk | internal/endpoint/bridge.go:25-135 | every event keeps an endpoint's invariant: data read equals data framed, closing frames in order, data accepted equals data written, nonces count frames |
| Bridge.SentStepOk | internal/endpoint/bridge.go:125-135 | although encrypting and sending are two steps, ciphertext `i` carries nonce and frame `i`, and at most the newest is unsent |
| BridgeLoops.Cipher.Encrypt | internal/tunnelcrypto/noise.go:72-81 | seals under the next nonce and advances it |
| BridgeLoops.Cipher.Decrypt | internal/tunnelcrypto/noise.go:83-92 | opens only the expected ciphertext; a failure leaves the nonce where it was |
| BridgeLoops.Initiator.FinishWith | internal/tunnelcrypto/noise.go:45-55 | a handshake completes at most once, and a failed attempt can be repeated |
| BridgeLoops.SendPlain | internal/endpoint/bridge.go:125-135 | marshals, encrypts and sends one frame as the machine does, also when the send fails |
| BridgeLoops.FinishSending | internal/endpoint/bridge.go:63-72 | half-close, wait for the other direction or the context, then normal close |
| BridgeLoops.SendLoop | internal/endpoint/bridge.go:47-75 | for everything the blocking calls can return, the error, the nonce and the ciphertexts sent are the machine's, which `BridgeOutcomes.SendOutcome` fixes |
| BridgeLoops.Dispatch | internal/endpoint/bridge.go:91-116 | the effect of one frame: nothing for empty data, else write, half-close, or close with its error; `remoteEOF` is closed once |
| BridgeLoops.RecvLoop | internal/endpoint/bridge.go:77-123 | for everything the blocking calls can return, the error, the nonce, the bytes written and the half-close are the machine's, and `remoteEOF` is never closed twice |
| BridgeOutcomes.SendOutcome | internal/endpoint/bridge.go:47-75 | `sendLoop` returns nil if and only if end of file was read and, after all data, half-close and normal close were both sent; a TCP error exactly for a failed read, a stream error exactly for a failed send, the context's exactly if it ended the wait |
| BridgeOutcomes.AnyDataCanBeSent | internal/endpoint/bridge.go:47-75 | whatever chunks of up to 32768 bytes are read, a run sends them and both closing frames and returns nil |
| BridgeOutcomes.RecvOutcome | internal/endpoint/bridge.go:77-123 | `recvLoop` returns nil if and only if the last frame was a normal close, and each other error exactly for its cause |
| BridgeOutcomes.AnyDataCanBeReceived | internal/endpoint/bridge.go:77-123 | whatever chunks the peer sealed, followed by half-close and normal close, a run writes them, closes the write side and returns nil |
| BridgeOutcomes.RefusalBytes | internal/endpoint/agent.go:112-116 | an agent that cannot open its target sends close code 2 with the text `target is unreachable` |
| BridgeTeardown.StopsIffLoopEnds | internal/endpoint/bridge.go:33-36 | `Bridge` goes on if and only if a loop has ended; four steps of its own then cancel the context and close connection and stream |
| BridgeTeardown.BridgeReturns | internal/endpoint/bridge.go:33-37 | from then on, wherever the other loop was, every run without further ciphertexts has at most seven events, and one that cannot go on has ended both loops and returned |
| BridgeTeardown.NoMoreFrames | internal/endpoint/bridge.go:117-121 | once the context is done, a `recvLoop` that has taken a frame takes no other |
| BridgeTeardown.CallsMayReturn | internal/endpoint/bridge.go:47-123 | what the blocking calls may return, exactly: reads of up to 32768 bytes with any status, sends and writes that stop anywhere, any ciphertext, and only failures once connection or stream are closed |
| EndToEnd.NextOk | internal/endpoint/bridge.go:25-135 | every step of any number of endpoints and an adversarial relay keeps keys, hellos and deliveries consistent |
| EndToEnd.JoinedMeansAgreement | internal/tunnelcrypto/noise.go:33-70 | two ends sharing a key are one client and one agent with equal key, route and session, joined in both directions and to nobody else |
| EndToEnd.BytesArriveInOrder | internal/endpoint/bridge.go:47-123 | whatever the relay does, bytes written at one end are a prefix of the bytes read at the other, and the write side is closed only when they are all of them up to end of file |
| EndToEnd.WrittenHasPeer | internal/endpoint/bridge.go:77-102 | an end that wrote anything has a peer that sent it |
| EndToEnd.ClientHasAgent | internal/endpoint/client.go:103-121 | a client past its handshake is joined to an agent that answered this client |
| EndToEnd.NormalCloseMeansComplete | internal/endpoint/bridge.go:59-113 | when `recvLoop` accepts a normal close both directions are complete: each end has written every byte the other read up to end of file |
| EndToEnd.NoncesInLockstep | internal/endpoint/bridge.go:125-139 | the `i`-th ciphertext an end sends carries nonce `i`, and no key and nonce are ever used twice by anybody |
| EndToEnd.FramesAlwaysParse | internal/endpoint/bridge.go:87-116 | between ends running this code no decrypted frame is rejected as malformed or empty |
| EndToEndReach.SentCanArrive | internal/tunnelcrypto/noise.go:83-92 | any ciphertext ever sent can be delivered to any receiving end at any time; it is accepted if and only if the two are joined and it is the next one, and otherwise ends the receiver without changing what was written |
| EndToEndReach.HelloCanArrive | internal/tunnelcrypto/noise.go:57-70 | any hello ever made can be shown to any agent again; it is answered if and only if it is a client's with the same key, route and session |
| EndToEndReach.AnswerCanArrive | internal/tunnelcrypto/noise.go:45-55 | a waiting client completes with a hello ever made if and only if an agent made it in answer to this client with equal key, route and session |
| EndToEndReach.CanBeJoined | internal/tunnelcrypto/noise.go:33-70 | in every state a new client and a new agent with one key, route and session can be joined in three steps |
| Progress.NoDeadlock | internal/endpoint/bridge.go:25-123 | once both sides have read end of file some move is possible until both bridges have returned |
| Progress.MoveDescends | internal/endpoint/bridge.go:25-123 | every such move lowers a non-negative measure |
| Progress.EndedDelivered | internal/endpoint/bridge.go:25-123 | a bridge that has returned has written every byte its peer read and closed the write side |
| Progress.TunnelFinishes | internal/endpoint/bridge.go:25-123 | over lossless streams that may break once an end is complete, once both sides have read end of file, every run is bounded, and one that cannot go on has delivered everything both ways and returned |
| Relayed.RelayOk | internal/relay/service.go:178-233 | no step of the relay, for this session or any other, begins tearing the session down before one end has closed its stream and all it sent was received |
| Relayed.CancelCause | internal/relay/service.go:89-233 | a step cancels a session if and only if it is the deferred `cancel` of its own call or of an attached `Accept`, or the clean-up of its agent while it is listed; no step takes that back |
| Relayed.EndSeesLossless | internal/endpoint/bridge.go:47-90 | a stream that ends or fails because the relay tore the session down does so only at an end that has sent its half-close and taken its peer's |
| Relayed.TeardownLosesNothing | internal/relay/service.go:166-233 | with the relay as the stream and any other calls on it, from the agent's attachment on, also if the agent sends first, an end whose bridge has returned has written every byte its peer read up to end of file and closed the write side |
| RelayedProgress.TunnelNotStuck | internal/relay/service.go:178-287 | once both ends have read end of file some move of the tunnel is possible until both bridges and both handlers have returned |
| RelayedProgress.OwnDescends | internal/endpoint/bridge.go:25-123 | every move of the two ends, their handlers and pumps lowers the work that is left |
| RelayedProgress.RelayedTunnelFinishes | internal/endpoint/bridge.go:25-123 | once both ends have read end of file every run of the tunnel's moves over the relay is bounded, and one that cannot go on has returned both bridges and both handlers and delivered everything both ways |
| BrokerExample.FreshTunnelExists | internal/relay/service.go:116-217 | a reachable state in which such a tunnel starts |
| TermCodec.CodecIsLossless | proto/relay/v1/relay.proto:29-41 | hellos have a non-empty byte form that determines them, so what the composition of client, relay and agent supposes of the wire can be met |
| TermCodec.CodingIsExact | proto/relay/v1/relay.proto:43-45 | ciphertexts have a byte form that determines them, so what the composition of bridges and relay supposes can be met |
| AgentLoop.Capacity | internal/endpoint/agent.go:32-37 | exactly one of target and handler is required; a positive limit is kept, any other becomes 128 |
| AgentLoop.TunnelCap | internal/endpoint/agent.go:49-92 | over any lost and renewed registrations, occupied slots equal running tunnels plus at most one about to start, and never exceed the limit |
| AgentLoop.ReleaseNeverBlocks | internal/endpoint/agent.go:86-91 | giving a slot back never blocks |
| AgentLoop.EveryNotificationServed | internal/endpoint/agent.go:76-92 | every notification received starts one tunnel, in order, except the one in hand and at most one given up when stopped |
| AgentLoop.WaitsOnlyWhenFull | internal/endpoint/agent.go:81-85 | the loop cannot go on exactly while running tunnels fill every slot and the agent is not stopped |
| AgentLoop.DelaysDouble | internal/endpoint/agent.go:50-68 | delay `i` is two to the power `i` seconds up to sixteen and thirty from then on, whatever happened in between |
| AgentLoop.DelayNotReset | internal/endpoint/agent.go:50-68 | a run that waits thirty seconds right after losing a registration that worked |
| AgentLoop.RetryLoop | internal/endpoint/agent.go:51-68 | the loop waits once per lost registration with the delays above and stops exactly at the first turn that says so; on the turns of any run of the transition system it waits, goes on and stops as that run's agent does |
| AgentLoop.TurnsHappen | internal/endpoint/agent.go:51-68 | every sequence of turns in which only the last stops the agent is that of some run |
| AgentLoop.MovesIff | internal/endpoint/agent.go:51-92 | in every reachable state, the places the loop can move to next, exactly: once stopped, only the end follows a lost registration or a cancelled wait |
| AgentLoop.StoppedForGood | internal/endpoint/agent.go:53-62 | an agent stopped before its registration was lost, or in its wait, never registers, hears, starts or waits again in any later run |
| Files.PubStepOk | internal/winservice/service_linux.go:153-179 | a publisher changes the path only by naming its own complete file there, and only if the path named nothing |
| Files.OthersUndisturbed | internal/winservice/service_linux.go:153-179 | a publisher never touches another's temporary file |
| HostKey.StepInv | internal/sshserver/keys.go:21-97 | every file operation of every caller keeps the invariant |
| HostKey.CallersAgree | internal/sshserver/keys.go:32-97 | all successful callers return the same key, the one the path holds, and the path is private |
| HostKey.ExistingKeyIff | internal/sshserver/keys.go:32-97 | a caller that finds a file from before and meets no error succeeds if and only if that file is private and parses, with that key; the file stays as it is |
| HostKey.CreatesAlone | internal/sshserver/keys.go:40-81 | where nothing is, a caller that meets no error publishes the key it made with mode 0600 and returns it |
| HostKey.SuccessMeansNoErrors | internal/sshserver/keys.go:21-97 | a caller that returns a key has met no error of any file operation, except perhaps in removing its temporary file at the very end |
| HostKey.PathAlwaysComplete | internal/sshserver/keys.go:48-81 | the path holds what it held before, or else only ever a complete, private, readable key |
| HostKey.PathNeverChanges | internal/sshserver/keys.go:71-81 | once the path names a file no step changes file, content or mode |
| HostKey.LoserReadsWinner | internal/sshserver/keys.go:71-97 | a caller that lost the race, or looks later, and meets no error gets the key the path holds, whatever others do between its steps |
| StateFile.RecordLoads | internal/accesscode/code.go:103-135 | a record written back and read again gives the same code |
| StateFile.StepInv | internal/accesscode/code.go:94-156 | every file operation of every caller keeps the invariant |
| StateFile.CallersAgree | internal/accesscode/code.go:98-155 | all successful callers on one path agree on route, key and URL, although others can read a partly written file |
| StateFile.ExistingFileLoadsIff | internal/accesscode/code.go:98-119 | a caller that finds a file from before and meets no error loads that file's route and key if and only if it is private, decodes, has version 1, the same URL and target, and fields that decode to 16 and 32 bytes; otherwise it gets an error, and the file stays as it is |
| StateFile.CreatorFinishes | internal/accesscode/code.go:124-155 | a run in which a caller that finds no file creates one with mode 0600 and returns the code it made |
| StateFile.SuccessMeansNoErrors | internal/accesscode/code.go:98-155 | a caller that returns a code has met no error |
| StateFile.CreatedFileLoads | internal/accesscode/code.go:98-119 | after a successful creation a caller with the same URL and target that meets no error loads the same code, whatever others do between its steps |
| StateFile.LoadsIffNotTorn | internal/accesscode/code.go:98-151 | once the creator has succeeded, failed or crashed, such a caller loads its code if and only if all but the last byte was written, and gets an error otherwise |
| StateFile.TornReachable | internal/accesscode/code.go:140-147 | runs in which the creator fails, or crashes, and leaves a torn file |
| StateFile.DecodedNeverChanges | internal/accesscode/code.go:140-155 | once the file decodes, no step changes what it decodes to |
| StateFile.TornFileNeverLoads | internal/accesscode/code.go:140-151 | if the creator ends before the record is whole the file stays as it is and nobody ever loads a code from it |
| UnitInstall.StepInv | internal/winservice/service_linux.go:22-53 | every operation of every caller keeps the invariant: the path is held by at most one caller, whose complete unit it is |
| UnitInstall.OneInstallSucceeds | internal/winservice/service_linux.go:22-53 | at most one installation succeeds, none if the unit existed, and its complete unit is what the path holds |
| UnitInstall.InstallDeeds | internal/winservice/service_linux.go:36-52 | a caller has installed if and only if it linked the unit, then reloaded the daemon, then, if and only if the unit is automatic, enabled it; it has rolled back if and only if one of these failed and it then removed the unit, or failed to, and reloaded once more |
| UnitInstall.InstallsAlone | internal/winservice/service_linux.go:22-53 | where no unit is, a caller that meets no error installs its own, complete and with mode 0644 |
| UnitInstall.InstalledMeansNoErrors | internal/winservice/service_linux.go:22-53 | a caller that installed or rolled back had its unit rendered, found the path free and met no error in publishing it |
| UnitInstall.InstalledStays | internal/winservice/service_linux.go:36-52 | no step of anybody changes an installed unit |
| UnitInstall.RollbackRemovesOwn | internal/winservice/service_linux.go:36-42 | a caller about to roll back by name removes exactly its own unit |
| UnitInstall.AllFailedRestores | internal/winservice/service_linux.go:22-53 | when all callers have failed the path is as it was if and only if no caller's removal failed |
| UnitInstall.UnitAlwaysComplete | internal/winservice/service_linux.go:153-179 | the path never holds a partial unit |
| Wire.VarintRoundTrip | proto/relay/v1/relay.proto:99-104 | a varint below two to the power 64 is read back, with the rest of the input untouched |
| Wire.FieldsRoundTrip | proto/relay/v1/relay.proto:99-104 | a list of fields of the protobuf wire format is read back as written |
| Wire.VarintMeaning | proto/relay/v1/relay.proto:99-104 | a varint is the shortest string of seven-bit groups, lowest first, with the top bit set on all but the last |
| Wire.TakeVarintIff | proto/relay/v1/relay.proto:99-104 | a number is read off the input if and only if groups of that value, minimal or not, of at most ten bytes and 64 bits, stand there |
| Wire.FixedSkipped | proto/relay/v1/relay.proto:99-104 | unknown fields of four and eight bytes are skipped |
| Wire.GroupSkipped | proto/relay/v1/relay.proto:99-104 | unknown groups are skipped up to their end tag |
| Wire.BadTagRefused | proto/relay/v1/relay.proto:99-104 | field number zero or past 2^29 - 1, a stray end of group and wire types 6 and 7 are refused |
| Wire.OverrunRefused | proto/relay/v1/relay.proto:99-104 | a field that announces more bytes than there are is refused |
| Wire.Utf8Iff | proto/relay/v1/relay.proto:101-101 | bytes are accepted as a string field if and only if they are the UTF-8 form (section 3 of RFC 3629) of some string of characters |
| Base64Url.RoundTrip | internal/accesscode/code.go:66-73 | decoding undoes encoding, for unpadded base64url as in section 5 of RFC 4648 |
| Base64Url.EncodeAt | internal/accesscode/code.go:66-66 | the text has ceil(4n/3) characters, and character `i` is the entry of the URL-safe alphabet, given as literals, for bits 6i to 6i+5 of the input padded with zeros |
| Base64Url.DecodesIff | internal/accesscode/code.go:73-76 | a text is decoded if and only if, line breaks aside, it is made of that alphabet and does not leave one character over |
| Base64Url.DecodedAt | internal/accesscode/code.go:73-73 | byte `k` decoded is bits 8k to 8k+7 of the characters' places in the alphabet, leftover bits being ignored |
| ConnectionCode.MessageRoundTrip | internal/accesscode/code.go:57-78 | a message is unmarshalled as it was marshalled, default fields left out |
| ConnectionCode.MarshalledBytes | proto/relay/v1/relay.proto:99-104 | the bytes of every valid code: 08 01, then 12, length and URL if it is not empty, 1a 10 and the route, 22 20 and the key |
| ConnectionCode.EncodedText | internal/accesscode/code.go:53-67 | the text of every valid code is `rc1_` and the base64url form of exactly those bytes |
| ConnectionCode.DecodeIff | internal/accesscode/code.go:69-92 | a text decodes to a code if and only if it starts with `rc1_`, the rest decodes to a message whose last version is 1, whose last URL, route and key are the code's, with every URL UTF-8, 16 and 32 bytes, and the URL is accepted |
| ConnectionCode.EncodeSucceedsIff | internal/accesscode/code.go:53-67 | a code encodes exactly if its sizes are right and its URL is UTF-8 |
| ConnectionCode.EncodeDecode | internal/accesscode/code.go:53-92 | decoding an encoded code gives it back if the URL is accepted, and that error otherwise |
| ConnectionCode.EncodeInjective | internal/accesscode/code.go:53-67 | different codes have different texts |
| ConnectionCode.DecodeEncodeDecode | internal/accesscode/code.go:69-92 | every accepted text, with reordered, repeated or unknown fields too, means a valid code that survives encoding and decoding again |
| SystemdQuote.ScanChar | internal/winservice/service_linux.go:129-147 | inside quotes each printed character is read back as itself, `%` as its doubled form, and NUL not at all |
| SystemdQuote.SystemdQuote | internal/winservice/service_linux.go:125-151 | the loop builds the quoted form, which `CommandRoundTrip` shows readers undo |
| SystemdQuote.OrdinaryQuoted | internal/winservice/service_linux.go:125-151 | text without quotes, backslashes, percent signs and control characters is quoted as it is |
| SystemdQuote.RenderCommand | internal/winservice/service_linux.go:100-105 | the loop builds the command line of executable and arguments |
| SystemdQuote.CommandRoundTrip | internal/winservice/service_linux.go:95-151 | unquoting, unescaping and specifier expansion give back exactly the executable and arguments if and only if none holds a NUL, whatever the specifiers mean |
| SystemdQuote.CommandInjective | internal/winservice/service_linux.go:95-151 | different commands have different texts |
| SystemdQuote.CommandPrintable | internal/winservice/service_linux.go:125-151 | whatever the words, the command is one line without control characters |
| SystemdUnit.RenderUnit | internal/winservice/service_linux.go:95-123 | a unit is rendered exactly for absolute executables; read back it has the thirteen fixed lines, given as literals, executes exactly the given words and shows a description as long as the given one, with a space for each line break and the same character elsewhere, if no word holds a NUL and the description is one that can be read |
| SystemdUnit.UnitReadsBack | internal/winservice/service_linux.go:99-121 | a reader sees exactly the lines that were meant if and only if the description ends in an even number of backslashes and holds no NUL |
| SystemdUnit.UnitMeans | internal/winservice/service_linux.go:99-121 | the lines a reader gets from such a unit are these, whatever the specifiers mean |
| SystemdUnit.ContinuesIffOdd | internal/winservice/service_linux.go:99-99 | a line is continued exactly when it ends in an odd number of backslashes |
| SystemdUnit.BackslashHidesNextLine | internal/winservice/service_linux.go:99-108 | with an odd number of backslashes at its end the description is read with the next line joined to it, and the line asking for the network is gone |

## Left out

- gRPC, TLS, authentication tokens, keepalive and server start-up: streams are reliable ordered message sequences that may end at any time.
- Real cryptography: hellos, keys and ciphertexts are symbolic terms (Noise Protocol Framework, revision 34, sections 5 and 9), nonces do not run out, and an honest end's ephemeral key is new.
- Collisions of session identifiers: they are 16 random bytes inserted without a check, and are modelled as fresh.
- Wall-clock time: every timeout, deadline and timer is an event that may happen at any moment its call is waiting.
- Logging, the per-outcome tunnel metric, `shortID` and the `localEOF` channel, which nobody reads.
- The value `Bridge` returns: end of stream and cancellation count as normal there, so it is no evidence of delivery; the theorems speak about bytes and frames.
- `openTarget` and the handler connection: an agent whose target cannot be opened sends one refusal, modelled as an endpoint that starts with it.
- Progress.TunnelFinishes: starts when both sides have read end of file, since a peer that never closes keeps its tunnel open by design.
- Relayed.TeardownLosesNothing: starts when the relay has attached the agent's call, before the acceptance is sent; the agent stays registered, the handshake timer does not fire and no stream breaks from outside. The client's end starts with the acceptance; the agent's may have started before the attachment. An agent that refuses because its target cannot be opened is covered by `EndToEnd` only.
- RelayedProgress.RelayedTunnelFinishes: supposes the same, and counts moves from where both sides have read end of file.
- ConnectionCode.EncodeDecode: supposes a URL shorter than two to the power 63 bytes, the limit of a Go string.
- ConnectionCode.DecodeEncodeDecode: supposes a URL shorter than two to the power 63 bytes, the limit of a Go string.
- `ValidateRelayURL` and Go's URL parser: acceptance of a URL is an arbitrary predicate.
- JSON: a state file's text is symbolic and decodes exactly when at most its final newline is missing; `LoadOrCreate` without a path makes a new code each time and shares nothing.
- File systems beyond one directory entry: atomic `link`, exclusive creation, appending writes; nobody but the modelled callers touches the path; Windows is left out.
- systemd beyond quoting, specifiers, line ends and line continuation: `$` expansion, special executable prefixes, comments, trimming of values, and non-ASCII `\x` and octal escapes, which the quoter never writes; strings are sequences of valid characters.
- `Uninstall`, `Start`, `Stop`, `Query` and Windows service control: operating-system calls.
- Command line, configuration, SSH sessions, PTYs, the client's accept loop and connection warming: user interface and plumbing that would add only easy members.
