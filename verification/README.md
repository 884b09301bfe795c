# ToxTunnel, verified

ToxTunnel carries TCP streams over toxcore's ordered, lossless per-friend packet
channel. This project models the state machines that make that safe and proves
what they promise, over all inputs, runs and interleavings.

Each machine appears twice: as pure step functions on a value that holds its
state, and, where the program updates that state in place, as a class whose
methods are proved to refine those functions. The theorems are about runs of
the step functions. toxcore, sockets, timers and the clock are an environment:
their answers are parameters of the steps and may be anything.

| file | what it covers |
|---|---|
| `Bytes.dfy`, `Protocol.dfy` | big-endian fields, the frame codec, resume payloads, fences and their echoes |
| `FenceLedger.dfy` | the credit ledger's fence ranges: recording, settling, thinning |
| `TwoBucket.dfy` | the two-bucket windowed extremum both flow controls use |
| `FriendGate.dfy`, `GatePacing.dfy`, `GateEstimators.dfy` | one friend's ledger: budget, admission, credit, probing, legacy detection; when exactly it does each; its estimates over runs |
| `LedgerEpochs.dfy` | the splitmix64 ledger epochs |
| `SendGate.dfy`, `GateOperations.dfy`, `GateObject.dfy` | all ledgers and the lock-free admission hint; what each call does to the whole; the mutable gate |
| `GateSystem.dfy`, `GateRecovery.dfy` | one ledger, a channel that loses its tail, and a peer that echoes; why a refused friend is admitted again |
| `BdpFlowControl.dfy` | the per-tunnel window: minimum round trip, probing, saturating arithmetic |
| `TokenBucket.dfy`, `RateLimiter.dfy` | integer-nanosecond token buckets and the per-friend limiter over them |
| `OpenAckGate.dfy` | the OPEN_ACK publication gate under every thread interleaving |
| `InboundThrottle.dfy`, `ThrottledRate.dfy` | the server's in-order deferral queue with its two rails; the rate it lets through |
| `Resume.dfy` | offset reconciliation over channels that lose what is in flight |
| `ClientFailover.dfy`, `ClientRoute.dfy`, `ResumeTokens.dfy` | the client: endpoint health and failover, routing on the strand, resume tokens and generations |
| `TcpConnection.dfy` | ordered writes, byte accounting, half-close and graceful close |
| `Handshake.dfy` | SOCKS5 and HTTP CONNECT parsed from arbitrary pieces |

`dafny verify dfyconfig.toml` checks everything.

## Where the code and its documentation part

The model follows the code. Nine promises turned out to hold only under a
condition. Each has a lemma with a failing case, and the exact condition is
proved in both directions, for all inputs.

- The lock-free hint over-rejects: of the packets it turns away, admission would
  pass exactly those that start like DATA but do not decode
  (`SendGate.MalformedDataIsOverRejected`, `OverRejectedExactlyIfMalformed`).
- The inbound retry timer is not moved when a later frame brings an earlier
  release deadline, although the throttle's header says it must not sleep past
  it (`InboundThrottle.TightenedDeadlineOversleeps`, `PendingTimerIsInTime`).
- A frame admitted at ingress is posted to the strand after the lock is released,
  so a switch in between drops it; what decides is the active server at posting
  time (`ClientRoute.AdmittedFrameCanBeDropped`, `PassesIfActiveWhenPosted`).
- The resume-deadline handler reads the session generation before it closes, so
  its close lands in a newer session exactly if one began in between; it still
  closes only the object its own request named
  (`ResumeTokens.DeadlineCloseCanBeLate`, `DeadlineCloseIsLateExactly`).
- A write that is refused for backpressure promises a later writable callback,
  but the refusal is judged at the call and remembered only when its task runs;
  if the write in flight completes in between, the callback never comes
  (`TcpConnection.RefusalCanBeForgotten`, `RefusalIsAnsweredExactly`).
- The handshake depends on how its bytes are cut into reads. A CONNECT whose
  header block is longer than 8193 bytes is accepted or refused; and a rejection
  only requests the close, so what a later read brings is parsed and answered
  again (`Handshake.LongBlockCutIsRefused`, `LateGreetingIsServed`,
  `CutIndependenceExactly`).
- The header of the rate limiter says a reload skips empty overrides; the code
  erases the key's bucket, so an empty entry wins over what the batch listed for
  the key before (`RateLimiter.EmptyEntryClears`, `ReloadSkipsEmptiesExactly`).
- The same header says a reload starts every friend from a full burst; a key listed
  twice keeps the smaller capacity's tokens (`RateLimiter.DuplicateStartsShort`,
  `ReloadTokensExactly`).
- Resume over `on_gap=close` also declines when bytes are merely in flight to the
  client (`Resume.InFlightLooksLost`, `OkExactly`).

## Model

| member | source | states |
|---|---|---|
| Bytes.ToBeDigit | src/tunnel/friend_send_gate.cpp:37-41 | byte i of a big-endian 64-bit field is the value shifted right past the later bytes, as the write loop computes it |
| Bytes.FromToBe | src/tunnel/protocol.cpp:18-78 | reading any n-byte big-endian field gives back the number that was written |
| Bytes.ToFromBe | src/tunnel/protocol.cpp:18-78 | writing back the number read from any byte string gives those bytes, and the number fits its width |
| Protocol.DecodeEncode | src/tunnel/protocol.cpp:303-403 | decoding undoes encoding for every frame, whatever follows it in the buffer; only a payload above 65535 bytes is cut |
| Protocol.EncodeDecode | src/tunnel/protocol.cpp:303-403 | re-encoding a decoded frame reproduces the bytes it occupied, the opcode byte exactly when the opcode is known |
| Protocol.PeekIsDecode | src/tunnel/friend_send_gate.cpp:51-62 | the send gate's hand-written look at a packet accepts exactly what the frame decoder accepts, with the same type, id and payload |
| Protocol.ResumeRequestRoundTrip | src/tunnel/protocol.cpp:214-265 | a resume request survives the wire with both offsets, host and port; only a host beyond 255 bytes is cut |
| Protocol.ResumeAckRoundTrip | src/tunnel/protocol.cpp:231-300 | a resume acknowledgement survives the wire with every field |
| Protocol.FencePayloadFields | src/tunnel/friend_send_gate.cpp:79-92 | the 17-byte fence payload splits back into its kind, epoch and sequence number |
| Protocol.FenceEchoRecognised | src/tunnel/protocol.cpp:199-208 | a fence decoded, answered and re-encoded by the peer is recognised as that same epoch and sequence number |
| Protocol.ForeignEchoIgnored | src/tunnel/friend_send_gate.cpp:223-226 | an echo of a fence of another epoch is never read as one of ours |
| Protocol.OtherReplies | src/tunnel/protocol.cpp:199-208 | the peer answers a keepalive PING with exactly the empty PONG and non-PING packets with nothing |
| Protocol.KindsExactly | src/tunnel/friend_send_gate.cpp:51-62 | a packet is DATA, a PING, an empty PING or an empty PONG exactly by the opcode, tunnel id and payload the peek reads |
| Protocol.EchoExactly | src/tunnel/friend_send_gate.cpp:219-226 | a packet is read as the echo of a fence if and only if it is a PONG on tunnel 0 with that fence's payload |
| Protocol.PongExactly | src/tunnel/protocol.cpp:199-208 | the reply to a PING is on tunnel 0 and echoes the payload up to 32 bytes, else none |
| Protocol.ReplyExactly | src/tunnel/protocol.cpp:199-208 | a delivered packet is answered if and only if it decodes to a PING |
| Protocol.ResumeRequestExactly | src/tunnel/protocol.cpp:231-265 | a resume request is read if and only if it is of version 1 and holds the host it announces |
| Protocol.ResumeAckExactly | src/tunnel/protocol.cpp:280-300 | a resume acknowledgement is read if and only if it is of version 1 and complete, an unknown status as such |
| FenceLedger.RecordKeeps | src/tunnel/friend_send_gate.cpp:375-400 | recording a fence, thinned or not, keeps ranges disjoint and increasing, snapshots strictly increasing within delivered and emitted, every sequence number tied to the emitted count at its sending, and the entry count within its limit |
| FenceLedger.RecordExactly | src/tunnel/friend_send_gate.cpp:375-400 | a fence extends the newest entry if nothing was emitted since, else adds one with what was emitted, owed and credited and its stamp |
| FenceLedger.ThinExactly | src/tunnel/friend_send_gate.cpp:382-395 | thinning keeps, in order, every other entry from the first on, and the last |
| FenceLedger.LimitThinsExactly | src/tunnel/friend_send_gate.cpp:382-395 | the record is thinned if and only if it exceeds the limit |
| FenceLedger.SettleKeeps | src/tunnel/friend_send_gate.cpp:227-237 | any echo, matching or not, keeps all of that and never moves delivered backwards or past emitted |
| FenceLedger.ForgetKeeps | src/tunnel/friend_send_gate.cpp:416-418 | clearing the entries keeps the book valid |
| FenceLedger.CoverUnique | src/tunnel/friend_send_gate.cpp:228-230 | at most one entry covers a sequence number, so the search finds the only match |
| FenceLedger.LimitMattersBelowTwo | src/tunnel/friend_send_gate.cpp:382-395 | with an entry limit of 0 thinning would record one fence twice and with 1 it still keeps two entries: the bound holds from 2 up |
| FenceLedger.EchoesCommute | src/tunnel/friend_send_gate.cpp:227-240 | two echoes leave the same entries and delivered count in either order |
| FenceLedger.EchoesIdempotent | src/tunnel/friend_send_gate.cpp:227-240 | a duplicated echo changes nothing |
| FenceLedger.ThinningOnlyDelays | src/tunnel/friend_send_gate.cpp:382-395 | for every event sequence the thinned ledger never credits more than the unthinned one, and the echo of the newest fence makes the two equal |
| TwoBucket.RefinesSlidingWindow | src/tunnel/bdp_flow_control.cpp:53-74 | for every time-ordered sample log, the two-bucket report is a sample of the last three bucket widths and no sample of the last width beats it |
| TwoBucket.AgingIsInvisible | src/tunnel/friend_send_gate.cpp:302-310 | resetting a filter idle for two widths changes no later report |
| BdpFlowControl.FlowControl.constructor | include/toxtunnel/tunnel/bdp_flow_control.hpp:69-90 | construction stores the sanitised configuration and seeds the window with it |
| BdpFlowControl.FlowControl.ObserveMinimum | src/tunnel/bdp_flow_control.cpp:53-69 | the in-place bucket update is one observation of the generic two-bucket minimum, and the estimate its report |
| BdpFlowControl.FlowControl.ObserveRttSamples | src/tunnel/bdp_flow_control.cpp:41-83 | the in-place update is the specified step: average, minimum, probe clock, probe and window |
| BdpFlowControl.FlowControl.ObserveBandwidthBps | src/tunnel/bdp_flow_control.cpp:85-92 | a positive bandwidth sample updates the average and recomputes the window, any other changes nothing |
| BdpFlowControl.FlowControl.RecomputeWindow | src/tunnel/bdp_flow_control.cpp:94-156 | the in-place recomputation equals the specified window in fixed mode, while probing, before the first sample and after it |
| BdpFlowControl.EwmaBetween | src/tunnel/bdp_flow_control.cpp:22-31 | an averaged value lies between the old value and the sample and stays positive |
| BdpFlowControl.SanitiseExactly | include/toxtunnel/tunnel/bdp_flow_control.hpp:69-90 | the stored configuration has a safe floor, ordered bounds and a bounded factor, and is the given one if and only if that already was so |
| BdpFlowControl.WindowIsSettled | src/tunnel/bdp_flow_control.cpp:94-156 | in every run computing the window again changes nothing |
| BdpFlowControl.WindowExactly | src/tunnel/bdp_flow_control.cpp:94-156 | in every run the window is capped bandwidth times the windowed minimum round trip plus queue budget, times the safety factor, in whole bytes, within its bounds, and by the smoothed round trip and not above the seed only before a trusted sample |
| BdpFlowControl.AveragesFollowSamples | src/tunnel/bdp_flow_control.cpp:41-92 | in every run both averages are those of the positive samples in order, and the probe clock starts at the last trusted sample or the first of all |
| BdpFlowControl.WindowFitsInt64 | src/tunnel/bdp_flow_control.cpp:119-136 | for any peer-controlled bandwidth and round trip, no intermediate product of the window arithmetic leaves a signed 64-bit integer |
| BdpFlowControl.WindowStaysInBounds | src/tunnel/bdp_flow_control.cpp:94-156 | in every run the window stays within its configured bounds, at the floor while probing, and not above the seed before a trusted sample |
| BdpFlowControl.MinimumFollowsTrustedSamples | src/tunnel/bdp_flow_control.cpp:49-74 | in every run the filter has seen exactly the trusted samples, in order |
| BdpFlowControl.MinimumIsWindowed | src/tunnel/bdp_flow_control.cpp:53-74 | in every run the estimate is a trusted sample of the last three buckets and at most every trusted sample of the last one |
| BdpFlowControl.ProbeExactly | src/tunnel/bdp_flow_control.cpp:46-81 | a probe is on after a sample exactly when that sample was untrusted and either a probe was already on or ten seconds have passed since the last trusted one |
| FriendGate.RateIsTwoBucketMaximum | src/tunnel/friend_send_gate.cpp:290-300 | observing a rate in place is one step of the generic two-bucket maximum, the estimate its report |
| FriendGate.RttIsTwoBucketMinimum | src/tunnel/friend_send_gate.cpp:350-373 | observing a trusted round trip in place is one step of the generic two-bucket minimum |
| GateEstimators.RateIsWindowed | src/tunnel/friend_send_gate.cpp:203-310 | in every run of a ledger's events, when an echo has just shown a rate the estimate is the rate of an echo of the last three buckets and no echo of the last bucket showed a larger one, whatever ageing in between |
| GateEstimators.RttIsWindowed | src/tunnel/friend_send_gate.cpp:203-373 | dually, the base round trip is a trusted round trip of the last three buckets and at most every trusted one of the last bucket |
| GateEstimators.RateIsReportedOrAged | src/tunnel/friend_send_gate.cpp:290-310 | in every run the rate estimate is the two-bucket report over all rates shown so far, or zero with the filter idle for two widths |
| FriendGate.RoomIsAdmission | src/tunnel/friend_send_gate.cpp:316-333 | the published room and admission agree on every packet size |
| FriendGate.BudgetExactly | src/tunnel/friend_send_gate.cpp:132-148 | the budget of an active ledger is rate times base round trip plus queue budget times the safety factor in whole bytes, within floor and ceiling, stated on the unscaled product |
| FriendGate.AdmissionExactly | src/tunnel/friend_send_gate.cpp:132-175 | DATA is admitted if and only if no probe holds it and it finds an empty pipe, or fits the floor, or fits both the ceiling and what the rate carries in the round trip |
| FriendGate.RateShownExactly | src/tunnel/friend_send_gate.cpp:242-262 | the rate an echo shows is the largest that both the credit and the sending clock support |
| FriendGate.SilentEventsOnlyShrinkRoom | src/tunnel/friend_send_gate.cpp:177-201 | events that do not republish the hint never make more room than it last promised |
| FriendGate.DataKeepsSound | src/tunnel/friend_send_gate.cpp:183-192 | accepting DATA, with or without the fence behind it, keeps the ledger's order and bounds |
| FriendGate.PongKeepsSound | src/tunnel/friend_send_gate.cpp:203-288 | any received packet keeps the ledger's order and bounds |
| FriendGate.TickKeepsSound | src/tunnel/friend_send_gate.cpp:450-514 | any tick keeps the ledger's order and bounds |
| FriendGate.BlockedDebtGetsCovered | src/tunnel/friend_send_gate.cpp:489-505 | while DATA is refused, one tick whose fence is taken leaves a fence outstanding that covers the whole debt |
| FriendGate.NewestEchoReopens | src/tunnel/friend_send_gate.cpp:227-288 | the peer's echo of the newest covering fence clears the debt, activates the ledger and lets DATA of any size through unless a probe holds it |
| FriendGate.AnsweredProbeEnds | src/tunnel/friend_send_gate.cpp:483-487 | an answered, drained probe ends at the next tick, which publishes an open hint |
| GateRecovery.RefusedFriendIsAdmittedAgain | src/tunnel/friend_send_gate.cpp:203-514 | from every reachable state with DATA being refused and the recovery pause over, a tick, the delivered stream and the newest fence's echo, at most twice and one more tick, reach a point where DATA of any size is admitted, probes included |
| GatePacing.FenceBehindDataExactly | src/tunnel/friend_send_gate.cpp:177-201 | behind DATA a fence goes out if and only if the friend is gated, two packets and a quarter of the budget went out since the last one, and toxcore takes it |
| GatePacing.TickFencesExactly | src/tunnel/friend_send_gate.cpp:489-514 | a tick fences if and only if it is due, or refused or probed debt is uncovered, or a probe has an empty pipe to measure, or the pause to ask again is over; asking again doubles the pause up to its maximum |
| GatePacing.HealthExactly | src/tunnel/friend_send_gate.cpp:468-488 | a probe starts and ends, and a hinted refusal is stamped, exactly under the stated conditions, and nothing else changes |
| GatePacing.TimeoutExactly | src/tunnel/friend_send_gate.cpp:459-467 | a tick judges a friend legacy if and only if no echo came for the timeout since the first fence, six times that after an earlier echo |
| GatePacing.PongJudgesExactly | src/tunnel/friend_send_gate.cpp:203-222 | a reply judges a friend legacy if and only if it is an empty PONG no keepalive accounts for while fences are out in detection |
| GatePacing.CreditExactly | src/tunnel/friend_send_gate.cpp:227-288 | what an echo does to credit clocks, trust, back-off, phase and probe |
| GatePacing.ReconnectExactly | src/tunnel/friend_send_gate.cpp:425-448 | a reconnect restarts detection and forgets nothing that is owed |
| LedgerEpochs.EpochsAreDistinct | src/tunnel/friend_send_gate.cpp:115-122 | the splitmix64 of one seed gives no two of the first 2^64 ledgers the same epoch |
| SendGate.FastRejectInv | src/tunnel/friend_send_gate.cpp:335-348 | the lock-free check keeps every invariant of the gate |
| SendGate.NextInv | src/tunnel/friend_send_gate.cpp:150-522 | every event of the gate keeps its invariant: sound ledgers, one ledger per named number, hints never below what admission allows |
| SendGate.ReachedInv | src/tunnel/friend_send_gate.cpp:150-522 | the invariant holds in every reachable gate |
| SendGate.FastRejectIsSafe | src/tunnel/friend_send_gate.cpp:335-348 | in every reachable gate a well-formed DATA packet the lock-free check refuses is one that admission would refuse too |
| SendGate.FreshHintIsExact | src/tunnel/friend_send_gate.cpp:316-348 | right after a ledger publishes its hint the check and admission agree exactly |
| SendGate.OverRejectedExactlyIfMalformed | src/tunnel/friend_send_gate.cpp:335-348 | of the packets the lock-free check turns away in a reachable gate, admission would wave through exactly those that do not decode |
| SendGate.MalformedDataIsOverRejected | src/tunnel/friend_send_gate.cpp:335-348 | the failing input, for every seed: after one accepted and one refused DATA packet the bytes A0 02 are turned away by the check and admitted by admission |
| SendGate.ReachedLedgersSound | src/tunnel/friend_send_gate.cpp:375-400 | in every reachable gate each ledger's fences are in order and its entries bounded |
| SendGate.ReachedEpochs | src/tunnel/friend_send_gate.cpp:94-122 | in every run of fewer than 2^64 - 1 events every ledger has an epoch of its own |
| SendGate.EchoesStayWithTheirFriend | src/tunnel/friend_send_gate.cpp:223-226 | in every reachable gate a peer's echo of another friend's fence changes nothing |
| GateOperations.AdmitExactly | src/tunnel/friend_send_gate.cpp:150-175 | only well-formed DATA of a known friend is judged, by that friend's ledger alone; a refusal is stamped and published |
| GateOperations.AcceptedExactly | src/tunnel/friend_send_gate.cpp:177-201 | an enqueue touches only its friend's ledger, counts DATA or a keepalive, and publishes nothing |
| GateOperations.ReceivedExactly | src/tunnel/friend_send_gate.cpp:203-240 | only a PONG on tunnel 0 of a known friend concerns the gate, and only that friend's ledger and slot |
| GateOperations.StatusExactly | src/tunnel/friend_send_gate.cpp:425-448 | only a reconnect of a known friend does anything |
| GateOperations.TickExactly | src/tunnel/friend_send_gate.cpp:450-514 | a tick runs exactly the gated ledgers whose number is still theirs, each on its own slot |
| GateOperations.TickFencesExactly | src/tunnel/friend_send_gate.cpp:489-514 | and those of them that fence put their next fence on the wire |
| GateOperations.TickLeavesOthers | src/tunnel/friend_send_gate.cpp:450-514 | a slot no gated ledger ticks on is left alone |
| GateOperations.ForgetExactly | src/tunnel/friend_send_gate.cpp:516-522 | forgetting a number unpins it and opens its slot, nothing else |
| GateOperations.FastRejectionIsNoticed | src/tunnel/friend_send_gate.cpp:335-348 | whatever happens in between, the next tick stamps the friend's ledger with a refusal made without a lock, and takes the demand flag back |
| GateObject.ThinEntries | src/tunnel/friend_send_gate.cpp:382-395 | the thinning loop keeps the first, every second and the last entry, as specified |
| GateObject.FindEntry | src/tunnel/friend_send_gate.cpp:228-238 | the search loop returns the covering entry if there is one |
| GateObject.FriendSendGate.constructor | src/tunnel/friend_send_gate.cpp:71-75 | a new gate has no ledgers and every hint open |
| GateObject.FriendSendGate.LedgerFor | src/tunnel/friend_send_gate.cpp:94-113 | looking up a number finds or creates the ledger of its key, or none |
| GateObject.FriendSendGate.AdmitPacket | src/tunnel/friend_send_gate.cpp:150-175 | the in-place admission gives the specified verdict and new gate |
| GateObject.FriendSendGate.RecordFence | src/tunnel/friend_send_gate.cpp:375-414 | recording a fence in place is the specified ledger step |
| GateObject.FriendSendGate.Accept | src/tunnel/friend_send_gate.cpp:177-201 | the in-place bookkeeping after an enqueue is the specified step |
| GateObject.FriendSendGate.Receive | src/tunnel/friend_send_gate.cpp:203-240 | the in-place handling of a received packet is the specified step |
| GateObject.FriendSendGate.ConnectionStatus | src/tunnel/friend_send_gate.cpp:425-448 | a reconnect re-arms detection as specified, a disconnect changes nothing |
| GateObject.FriendSendGate.TickAll | src/tunnel/friend_send_gate.cpp:450-514 | the tick's loop over a mutable ledger table, in whatever order, yields the specified gate and fences |
| GateObject.FriendSendGate.Forget | src/tunnel/friend_send_gate.cpp:516-522 | forgetting a number drops its name and reopens its hint |
| GateObject.FriendSendGate.TryFastReject | src/tunnel/friend_send_gate.cpp:335-348 | the lock-free check gives the specified verdict and records demand |
| GateSystem.CreditIsNeverEarly | src/tunnel/friend_send_gate.cpp:150-240 | in every run of gate, lossy ordered channel and echoing peer, the DATA bytes in flight never exceed emitted minus delivered, and never exceed the budget ceiling or one packet unless the peer was judged legacy |
| GateSystem.OutstandingFencesInOrder | src/tunnel/friend_send_gate.cpp:375-414 | in every such run each outstanding range carries the emitted count at which its fences were really sent, ranges are ordered, end at the newest sequence number and are bounded in number |
| GateSystem.EchoingPeerIsNeverCondemned | src/tunnel/friend_send_gate.cpp:203-222 | in every such run, with losses and reconnects, no reply on its way makes the gate judge an echoing peer legacy, and empty PONGs never outnumber empty PINGs |
| TokenBucket.RefillKeepsSound | src/app/rate_limiter.cpp:244-314 | a refill keeps tokens within the bucket and the cursor at or before the clock, and moves neither backwards |
| TokenBucket.RefillExactly | src/app/rate_limiter.cpp:244-314 | a new or unlimited bucket is only stamped, a full one banks no time, and otherwise the cursor moves by what the new tokens cost |
| TokenBucket.RefillTracksIdeal | src/app/rate_limiter.cpp:265-313 | the refill with its saturation shortcut lies between the ideal unbounded-integer refill now and one nanosecond later |
| TokenBucket.RefillIsIdealUnlessEarly | src/app/rate_limiter.cpp:265-279 | at any rate it differs from the ideal if and only if the shortcut fires in the nanosecond before it is due and the tokens held do not make up for it; at up to a token a nanosecond that takes an empty bucket |
| TokenBucket.RefillFitsInt64 | src/app/rate_limiter.cpp:265-313 | with the configured ceilings no intermediate value of a refill leaves a signed 64-bit integer and the cursor never passes the clock |
| TokenBucket.WaitFitsInt64 | src/app/rate_limiter.cpp:403-410 | the announced wait fits too and is the shortfall's accrual time rounded up |
| TokenBucket.RefillLeak | src/app/rate_limiter.cpp:244-314 | one refill creates less than a nanosecond's worth of credit |
| TokenBucket.RefillCredits | src/app/rate_limiter.cpp:244-314 | one refill loses no earned credit the bucket has room for |
| TokenBucket.GrantedBound | src/app/rate_limiter.cpp:357-415 | over any stretch of calls the tokens granted are bounded by the bucket's worth at its start plus rate times time plus under a nanosecond of credit per call |
| TokenBucket.GrantedSinceCreation | src/app/rate_limiter.cpp:244-314 | from creation, over k calls spanning T ns, at most burst + rate * (T + k) / 1e9 tokens are granted |
| TokenBucket.PollingNeverStarves | src/app/rate_limiter.cpp:286-313 | however it is polled, with refused requests or calls that only refill, a bucket nobody draws from holds at least the smaller of its capacity and what it held plus everything the elapsed time earned |
| TokenBucket.RetryIsGranted | src/app/rate_limiter.cpp:403-411 | a refused request is granted at any retry from the announced wait on, however the bucket is polled or refilled meanwhile, if nothing is drawn |
| RateLimiter.NormaliseKey | src/app/rate_limiter.cpp:98-103 | the loop lower-cases the key byte by byte |
| RateLimiter.RefillOne | src/app/rate_limiter.cpp:244-314 | the imperative refill with its early returns computes the specified meter |
| RateLimiter.FriendLimiter.TryConsumeOpen | src/app/rate_limiter.cpp:324-350 | the in-place request refills, counts and decides as specified in every mode |
| RateLimiter.FriendLimiter.TryConsumeBytes | src/app/rate_limiter.cpp:357-415 | the in-place request refills, counts, charges and announces the wait as specified in every mode |
| RateLimiter.FriendLimiter.NoteBytesThrottled | src/app/rate_limiter.cpp:417-426 | a note counts only while byte limiting is engaged and spends nothing |
| RateLimiter.FriendLimiter.InstallFriendSpec | src/app/rate_limiter.cpp:178-198 | installing an override erases, creates or re-specs the bucket as specified |
| RateLimiter.FriendLimiter.SetDefaultSpec | src/app/rate_limiter.cpp:145-155 | the loop re-merges every live bucket against the new defaults |
| RateLimiter.FriendLimiter.ResetClock | src/app/rate_limiter.cpp:122-132 | the loop unstamps every bucket and changes nothing else |
| RateLimiter.FriendLimiter.ReplaceEverything | src/app/rate_limiter.cpp:162-176 | the reload's loop installs the batch on a cleared table |
| RateLimiter.NormaliseFixpoint | src/app/rate_limiter.cpp:16-26 | normalising is idempotent and leaves alone exactly the specs in range |
| RateLimiter.StepCoherent | src/app/rate_limiter.cpp:105-232 | every operation keeps every effective spec equal to the current defaults with the friend's own override on top |
| RateLimiter.ReloadGoverns | src/app/rate_limiter.cpp:162-176 | after a reload each friend is under the new defaults with the last override listed for its key, however capitalised, whatever was there before |
| RateLimiter.ReloadSkipsEmptiesExactly | include/toxtunnel/app/rate_limiter.hpp:330-333 | the override that governs a key after a reload is the one that skipping empty entries would leave if and only if the key's last entry is not empty or all of them are |
| RateLimiter.LeadingEmptiesAreSkipped | include/toxtunnel/app/rate_limiter.hpp:330-333 | while no empty entry for a key follows another, its whole bucket, tokens included, comes out as if they were skipped |
| RateLimiter.EmptyEntryClears | src/app/rate_limiter.cpp:178-198 | the failing batch: a friend's block followed by an empty one leaves the friend under the defaults, though skipping would keep the block |
| RateLimiter.ReloadIsTheSequence | include/toxtunnel/app/rate_limiter.hpp:305-333 | the atomic reload has the effect of the clear, set-defaults and set-friend calls in sequence |
| RateLimiter.ReloadTokensExactly | include/toxtunnel/app/rate_limiter.hpp:320-328 | after a reload a friend holds the smallest capacity its key was given since it was last listed empty, so a full bucket if and only if none was smaller than its last |
| RateLimiter.DuplicateStartsShort | src/app/rate_limiter.cpp:162-198 | the failing batch: a key listed with a small and then a larger capacity starts with the small one's tokens |
| RateLimiter.SparseOverrides | src/app/rate_limiter.cpp:44-84 | an override of one field changes that field and no other |
| RateLimiter.OverridesAreIndependent | src/app/rate_limiter.cpp:44-84 | each field lands where it does alone, whatever the other fields say |
| RateLimiter.WholeSpecGoverns | src/app/rate_limiter.cpp:87-96 | a whole spec as an override governs entirely |
| RateLimiter.ModeIsInherited | src/app/rate_limiter.cpp:61-84 | an override without a mode takes the defaults' mode, except that limits written with nothing to inherit from are enforced; explicit mode-off defaults stay off |
| RateLimiter.StepSound | src/app/rate_limiter.cpp:105-426 | every operation keeps every bucket free of debt, within capacity and not ahead of the clock |
| RateLimiter.CaseIsIgnored | src/app/rate_limiter.cpp:98-103 | two spellings of a key name the same bucket if and only if they differ in the case of letters only |
| RateLimiter.ReconfiguringKeepsTokens | src/app/rate_limiter.cpp:105-198 | new defaults or a new override keep a live bucket's tokens, but for those above the new capacity, and its counters; a friend without a bucket starts full |
| RateLimiter.RequestsAreRun | src/app/rate_limiter.cpp:316-415 | over any interleaving of all friends' requests, a friend's bucket runs exactly on the friend's own calls and passes exactly what that run grants |
| RateLimiter.FriendRate | src/app/rate_limiter.cpp:316-415 | under an enforced spec what a friend puts through, in opens or in payload bytes, is at most burst + rate * (T + k) / 1e9 whatever everyone else sends |
| RateLimiter.OpensRefusedExactly | src/app/rate_limiter.cpp:324-350 | after any interleaving of requests an open is refused if and only if the effective spec enforces a non-zero rate and burst and the friend's own calls leave no token |
| RateLimiter.PayloadsRefusedExactly | src/app/rate_limiter.cpp:357-415 | the same for a payload and its size or, beyond it, the whole capacity |
| RateLimiter.CountersAreExact | src/app/rate_limiter.cpp:334-426 | in every run of requests the two counters grow by exactly the limited requests that found their bucket short |
| RateLimiter.UnlimitedTakesNothing | src/app/rate_limiter.cpp:330-374 | without a limit in force a request only refills |
| RateLimiter.ReportTakesWhatIsThere | src/app/rate_limiter.cpp:334-398 | in report mode a request takes what it can of what is there and is never refused |
| RateLimiter.DeferredPayloadPasses | src/app/rate_limiter.cpp:403-411 | a deferred payload goes through on any retry from the announced time on, over any interleaving of other friends' requests and the friend's own opens and refused payloads |
| OpenAckGate.AckGate.ClaimSend | src/app/tunnel_server.cpp:2187-2199 | the first critical section of an attempt claims the send only from Pending |
| OpenAckGate.AckGate.RecordVerdict | src/app/tunnel_server.cpp:2208-2244 | the second records the verdict, a pending target death first |
| OpenAckGate.AckGate.RecordPublication | src/app/tunnel_server.cpp:2257-2264 | the third publishes and hands out the deferred close |
| OpenAckGate.AckGate.ArmRetry | src/app/tunnel_server.cpp:2274-2287 | a retry is armed only while Pending |
| OpenAckGate.AckGate.OnTargetGone | src/app/tunnel_server.cpp:2289-2326 | a target death is resolved, handed over or returned to the caller, phase by phase |
| OpenAckGate.AckGate.OnDisarm | src/app/tunnel_server.cpp:2328-2337 | disarming succeeds only while Pending and then drops every callback |
| OpenAckGate.RunInv | src/app/tunnel_server.cpp:2187-2337 | every interleaving of any number of threads keeps the gate's phase, its callbacks in progress, those that ran and the answers given consistent |
| OpenAckGate.CommitOrAbandonOnce | src/app/tunnel_server.cpp:2208-2255 | in every interleaving commit and abandon together run at most once |
| OpenAckGate.OneSendAtATime | src/app/tunnel_server.cpp:2187-2206 | in every interleaving at most one send is in the transport, and none while an abandon is due |
| OpenAckGate.NeverErrorThenAck | src/app/tunnel_server.cpp:2213-2223 | in every interleaving no send starts or ends after the abandon callback ran |
| OpenAckGate.VerdictIsTheSends | src/app/tunnel_server.cpp:2200-2245 | in every interleaving a recorded verdict is the outcome of the send that ended last |
| OpenAckGate.CommitNeedsSent | src/app/tunnel_server.cpp:2223-2255 | in every interleaving a commit follows a send that ended Sent and was recorded so before any report that the target is gone |
| OpenAckGate.AbandonNeedsFailure | src/app/tunnel_server.cpp:2212-2249 | in every interleaving an abandon follows a permanent failure or such a report |
| OpenAckGate.CommitExactlyIfDelivered | src/app/tunnel_server.cpp:2208-2255 | at rest the commit has run if and only if a delivered ACK was recorded with no such report before it |
| OpenAckGate.AbandonExactlyIfFailed | src/app/tunnel_server.cpp:2208-2316 | at rest the abandon has run if and only if neither a commit nor a disarm resolved the gate, and always after a permanent failure or a verdict recorded behind such a report |
| OpenAckGate.SentCommitsUnlessGone | src/app/tunnel_server.cpp:2223-2255 | an ACK that was sent is committed unless the target was reported gone |
| OpenAckGate.SentCanBeAbandoned | src/app/tunnel_server.cpp:2212-2222 | a run in which the report falls between the end of a send and its verdict, and the sent ACK is abandoned |
| OpenAckGate.RestsResolved | src/app/tunnel_server.cpp:2240-2287 | a started gate never comes to rest unresolved |
| OpenAckGate.OneTeardownOwner | src/app/tunnel_server.cpp:2257-2337 | a single target death ends, once everything rests, with exactly one teardown owner among caller, abandon, post-commit close, failed commit and disarm |
| OpenAckGate.ClosesOnlyPublished | src/app/tunnel_server.cpp:2257-2314 | the ordinary and the post-commit close only ever apply to a published tunnel |
| InboundThrottle.ByteThrottle.AdmitPacket | src/app/tunnel_server.cpp:101-154 | the in-place admission gives the specified verdict and queue |
| InboundThrottle.ByteThrottle.TakeReady | src/app/tunnel_server.cpp:169-204 | the in-place pop gives the specified packet and queue |
| InboundThrottle.ByteThrottle.Collect | src/app/tunnel_server.cpp:918-932 | the collecting loop takes exactly the specified packets, in order |
| InboundThrottle.ByteThrottle.Clear | src/app/tunnel_server.cpp:206-212 | clearing leaves an idle throttle |
| InboundThrottle.DrainTakesPrefix | src/app/tunnel_server.cpp:169-204 | a drain takes a prefix of the queue, stops only at a refused metered packet with every remaining deadline ahead, and empties a released queue |
| InboundThrottle.OrderIsConserved | src/app/tunnel_server.cpp:76-204 | in every run, with every arrival and every dispatch logged, the order-bearing frames dispatched followed by the queue are exactly those that arrived, in order, every other frame went out, nothing fails to decode on replay, the byte count is exact and within the rail, no deadline is kept late or made up, and a waiting queue has a timer |
| InboundThrottle.BypassExactly | src/app/tunnel_server.cpp:76-99 | the kinds that bypass the queue are exactly those that bear no order: not opens, data, closes, errors and resumes |
| InboundThrottle.ArrivalExactly | src/app/tunnel_server.cpp:101-154 | an order-bearing frame goes out at once if and only if nothing waits and it is free or granted; queued, it opens the queue if and only if it exceeds the rail or a deadline asked for since the queue was last empty has come |
| InboundThrottle.PopExactly | src/app/tunnel_server.cpp:169-204 | the oldest packet goes if and only if the queue is open, a deadline has come, it is not metered, or it is granted; otherwise the announced wait is kept |
| InboundThrottle.AnnouncedWaitIsKept | src/app/tunnel_server.cpp:115-130 | a frame queued first keeps the wait the limiter announced for it |
| InboundThrottle.TimerWaitExactly | src/app/tunnel_server.cpp:974-994 | the timer is set for the whole milliseconds, one to a thousand, that cover the announced wait or the time to the release, whichever is shorter |
| InboundThrottle.ReleaseEmpties | src/app/tunnel_server.cpp:802-823 | an arrival that hits either rail leaves the queue empty and everything dispatched |
| InboundThrottle.TimerLeavesTimeFor | src/app/tunnel_server.cpp:169-204 | after a timer event no frame still waits whose own deadline the drain's last reading had reached |
| InboundThrottle.FreshTimerIsInTime | src/app/tunnel_server.cpp:969-990 | a timer set now wakes at most a millisecond after the release deadline |
| InboundThrottle.PendingTimerIsInTime | src/app/tunnel_server.cpp:969-1004 | in every run the pending timer wakes within a millisecond of the queue's release deadline if and only if it does so for each frame parked since it was set |
| InboundThrottle.SteadyDeadlinesNeverOversleep | src/app/tunnel_server.cpp:969-1004 | in every run in which no frame's own deadline is earlier than that of one before it, the timer never oversleeps |
| InboundThrottle.TightenedDeadlineOversleeps | src/app/tunnel_server.cpp:969-990 | a two-frame run in which the pending timer sleeps 950 ms past the deadline the second frame brought |
| ThrottledRate.AnswerIsVerdict | src/app/tunnel_server.cpp:101-204 | data passes under the budget exactly when the bucket, asked for that many bytes, grants them |
| ThrottledRate.ThrottledRateHolds | src/app/tunnel_server.cpp:101-204 | over any sequence of arrivals and drains, with an enforced bucket behind the throttle, the data bytes let through other than by a release are at most burst + rate * (T + k) / 1e9 |
| Resume.OkExactly | src/app/tunnel_server.cpp:2437-2495 | in every run under on_gap=close the server answers Ok exactly when it has every byte the client emitted before asking and the client had, when asking, every byte the server has emitted |
| Resume.OkMeansNothingLost | src/app/tunnel_server.cpp:2437-2495 | an Ok means no byte was lost in either direction over the tunnel's life and both receive offsets equal the opposite emitted offsets |
| Resume.InFlightLooksLost | src/app/tunnel_server.cpp:2437-2467 | a run in which nothing was lost and the server still declines, because bytes were on their way to the client |
| Resume.DeclineDropsTunnel | src/app/tunnel_server.cpp:2371-2495 | a decline leaves the server without the tunnel unless resume is switched off, an acceptance leaves it untouched and resumable |
| Resume.AnswerExactly | src/app/tunnel_server.cpp:2371-2495 | under either gap rule the answer is Ok if and only if the tunnel is live, no abort overtakes it and, if gaps close, no sent offset is ahead of the other side's received one; a live tunnel answers with its own offsets |
| ClientFailover.EndpointTable.FriendConnection | src/app/tunnel_client.cpp:854-895 | the in-place connection change is the specified step |
| ClientFailover.EndpointTable.PeerAlive | src/app/tunnel_client.cpp:1129-1148 | a recovery restores only the active, routed endpoint over a live link |
| ClientFailover.EndpointTable.DeadVerdict | src/app/tunnel_client.cpp:1162-1190 | a verdict applies only while latched and about the active, routed endpoint |
| ClientFailover.EndpointTable.StandbyPong | src/app/tunnel_client.cpp:2672-2696 | a standby's PONG restores it, the active server's does not |
| ClientFailover.EndpointTable.Expire | src/app/tunnel_client.cpp:2559-2580 | the loop marks exactly the silent standbys unusable |
| ClientFailover.EndpointTable.DecideSwitch | src/app/tunnel_client.cpp:2328-2373 | the decision computed with its search loop is the specified one |
| ClientFailover.EndpointTable.SwitchActive | src/app/tunnel_client.cpp:2389-2416 | a switch moves the index, the online mirror and the generation together |
| ClientFailover.EndpointTable.FailoverOnStrand | src/app/tunnel_client.cpp:2534-2557 | the strand's pass expires, decides and switches as specified |
| ClientFailover.RunKeepsInv | src/app/tunnel_client.cpp:854-897 | in every run the online mirror equals the active endpoint's flag, the index is in range and online implies link up |
| ClientFailover.DecisionIsUsable | src/app/tunnel_client.cpp:2328-2373 | a decision names an online endpoint other than the active one, the first such unless it is the primary |
| ClientFailover.FailoverSettles | src/app/tunnel_client.cpp:2534-2580 | applying the failover pass again at the same instant changes nothing, and a switch lands on a usable server |
| ClientFailover.FlipsAreStamped | src/app/tunnel_client.cpp:873-884 | every event stamps exactly the endpoints whose usability it flips |
| ClientFailover.UnchangedSinceStamp | src/app/tunnel_client.cpp:873-883 | in every run an endpoint has been as usable as it is now ever since its stamp |
| ClientFailover.SwitchesAreEarned | src/app/tunnel_client.cpp:2347-2373 | in every run a replaced server was unusable through the whole timeout, or the primary switched back to was usable through the whole grace period |
| ClientFailover.FailoverExactly | src/app/tunnel_client.cpp:2328-2416 | in every run, by the history alone: an active server unusable through the whole timeout is replaced by the lowest usable other, else a primary usable through the whole grace period is returned to, else nothing changes |
| ClientFailover.StampIsLastFlip | src/app/tunnel_client.cpp:873-883 | in every run an endpoint was as usable as it is now throughout a span if and only if its stamp is no later than the start of the span |
| ClientFailover.UsabilityExactly | src/app/tunnel_client.cpp:854-1190 | an endpoint becomes usable, or stops being so, on exactly the evidence of its link, a recovery, a PONG, a latched verdict or a standby's silence |
| ClientFailover.ExpiryExactly | src/app/tunnel_client.cpp:2559-2580 | in every run a pass takes a standby's usability if and only if it has not been heard for three keepalive intervals |
| ClientFailover.SilenceIsMeasured | src/app/tunnel_client.cpp:2559-2580 | in every run the silence a pass measures runs from the last PONG as a standby, link up or demotion |
| ClientFailover.LinkIsAsReported | src/app/tunnel_client.cpp:854-895 | in every run an endpoint's link is as last reported for its friend |
| ClientFailover.GenerationCountsSessions | src/app/tunnel_client.cpp:885-897 | in every run the session generation counts exactly the link reports about the server in use and the switches |
| ClientRoute.Router.OnPacket | src/app/tunnel_client.cpp:972-1002 | ingress takes only packets of the active friend |
| ClientRoute.Router.SwitchActiveEndpoint | src/app/tunnel_client.cpp:2389-2448 | the switch publishes the index and queues the repin in one critical section |
| ClientRoute.Router.RunOne | src/app/tunnel_client.cpp:1008-1066 | running a task repins, switches, or gates and answers a frame as specified |
| ClientRoute.RepliesGoToTheSender | src/app/tunnel_client.cpp:1461-1487 | in every run gate and reply handler are pinned to the same friend and every reply, queued ones included, goes to its frame's sender |
| ClientRoute.PassesIfActiveWhenPosted | src/app/tunnel_client.cpp:978-1066 | a frame is handled if and only if its sender is the active server when the frame is posted, whatever switches are queued or decided before its turn |
| ClientRoute.FramesAreAccounted | src/app/tunnel_client.cpp:972-1066 | in every run exactly the packets of the server active at their arrival are taken in, and each is held, posted, dropped at the gate, or answered with its reply waiting, going out, sent, or forgotten at the repin that found it waiting |
| ClientRoute.AdmittedFrameCanBeDropped | src/app/tunnel_client.cpp:988-1009 | admission at ingress is not enough: a run in which a switch between admission and posting makes the gate drop the frame |
| ResumeTokens.TokenTable.TakeFor | src/app/tunnel_client.cpp:1660-1685 | an answer consumes its id's token whether or not it matches |
| ResumeTokens.TokenTable.TakeExpired | src/app/tunnel_client.cpp:1596-1615 | the loop takes out exactly the tokens whose deadline has passed |
| ResumeTokens.TokenTable.Earliest | src/app/tunnel_client.cpp:1569-1594 | the loop finds the earliest deadline, none exactly when the table is empty |
| ResumeTokens.RunInv | src/app/tunnel_client.cpp:1489-1717 | every interleaving of requests, answers, deadlines, session changes and id reuse keeps every request unsettled in one place or settled once |
| ResumeTokens.OneOutcomeEach | src/app/tunnel_client.cpp:1596-1717 | in every run each request is settled at most once, on the object it was sent for |
| ResumeTokens.NothingIsForgotten | src/app/tunnel_client.cpp:1489-1636 | once the table, the deadline handler and the answer in hand are empty every request has its outcome |
| ResumeTokens.AnswersActOnTheirRequest | src/app/tunnel_client.cpp:1638-1717 | an answer acts on the very object its request was sent for, alive, in the generation it was sent in, which is the current one, whatever ids were recycled |
| ResumeTokens.AnswerExactly | src/app/tunnel_client.cpp:1638-1717 | in every run what an answer settles and how: resumed if accepted, declined if not, closed if aborted, discarded if sent for another object or session, nothing otherwise |
| ResumeTokens.RequestExactly | src/app/tunnel_client.cpp:1489-1567 | in every run what a request records: its object, the generation its round began in and its deadline, in the place of an older one, and nothing for an aborted tunnel |
| ResumeTokens.DueIsOverdue | src/app/tunnel_client.cpp:1596-1615 | in every run the deadline handler has taken out only requests whose deadline had passed |
| ResumeTokens.AnsweredInItsSession | src/app/tunnel_client.cpp:1638-1717 | every answered outcome of a run was reached in the generation its request was sent in |
| ResumeTokens.DeadlineCloseIsLateExactly | src/app/tunnel_client.cpp:1596-1636 | in every run a close by the deadline handler lands in its request's session if and only if no session began between the handler's reading of the generation and the close |
| ResumeTokens.DueActsOnItsRequest | src/app/tunnel_client.cpp:1612-1636 | in every run the handler closes an expired request exactly if its generation was current when read and its object is alive, and settles that request alone |
| ResumeTokens.DeadlineCloseCanBeLate | src/app/tunnel_client.cpp:1596-1636 | a run in which the deadline handler, which reads the generation before it closes, closes in a newer session |
| TcpConnection.Connection.Close | src/core/tcp_connection.cpp:986-1031 | the in-place close discards the queue, refunds its bytes and ends the stream as specified |
| TcpConnection.Connection.MaybeShutdownSend | src/core/tcp_connection.cpp:950-969 | the send half is shut down only when requested, not done, and nothing is left to write |
| TcpConnection.Connection.StartWrite | src/core/tcp_connection.cpp:859-889 | the next write starts, or the drained connection shuts down or closes, as specified |
| TcpConnection.Connection.EnqueueWrite | src/core/tcp_connection.cpp:404-419 | queueing counts the bytes, raises the watermark and starts an idle writer |
| TcpConnection.Connection.OnWriteComplete | src/core/tcp_connection.cpp:889-948 | a completion, successful, failed or with a throwing callback, is the specified step |
| TcpConnection.Connection.OnShutdownTask | src/core/tcp_connection.cpp:440-457 | the shutdown request takes effect on the strand |
| TcpConnection.Connection.OnCloseTask | src/core/tcp_connection.cpp:421-438 | a close waits for pending writes or closes at once |
| TcpConnection.Connection.OnForceCloseTask | src/core/tcp_connection.cpp:469-511 | a forced close refunds queued bytes only |
| TcpConnection.RunInv | src/core/tcp_connection.cpp:282-511 | every run keeps the strand's promises: what was requested, taken, queued and written fit together |
| TcpConnection.EndOfStreamIsComplete | src/core/tcp_connection.cpp:440-457 | in every failure-free run, when the stream was ended the socket had taken exactly the writes accepted before the shutdown request, or at least those accepted before the close request, in order |
| TcpConnection.NothingIsReordered | src/core/tcp_connection.cpp:282-326 | while the connection lives, written, in-flight, queued and posted bytes are the accepted bytes in order |
| TcpConnection.AccountingIsExact | src/core/tcp_connection.cpp:404-511 | in every run, failures and forced closes included, the byte count is queued plus in-flight bytes and never negative |
| TcpConnection.WhatIsOwedIsDriven | src/core/tcp_connection.cpp:859-948 | a pending close or shutdown, or a writer held at the watermark, has a write in flight to bring it on, unless the writable callback asked to be called again |
| TcpConnection.Connection.Write | src/core/tcp_connection.cpp:282-326 | what a write call decides at once: whether its bytes are posted and whether the caller is told to wait |
| TcpConnection.RefusalIsAnswered | src/core/tcp_connection.cpp:404-948 | if the watermark is up when a refused write's task runs, or the task finds the byte count at the limit, the writable callback is called by the time the connection has drained, in every failure-free continuation |
| TcpConnection.RefusalIsAnsweredExactly | src/core/tcp_connection.cpp:404-948 | and in continuations in which no later write finds the count at the limit, the callback is called if and only if that was so |
| TcpConnection.RefusalCanBeForgotten | src/core/tcp_connection.cpp:304-326 | a run in which a refused write drains completely without the writable callback ever being asked |
| TcpConnection.RefusedExactly | src/core/tcp_connection.cpp:282-326 | in every run a write is refused if and only if the bytes not yet written would come to more than the limit |
| TcpConnection.AskedExactly | src/core/tcp_connection.cpp:913-948 | at a completed write the writable callback is called if and only if the watermark is up and at most half the limit is left, and lowers it only if it flushed everything |
| TcpConnection.ForcedExactly | src/core/tcp_connection.cpp:469-511 | a forced close drops the queue and ends the stream where it is, a reset does not end it |
| TcpConnection.FailureExactly | src/core/tcp_connection.cpp:891-907 | a failed write keeps what it wrote, refunds everything and closes the connection |
| Handshake.ProxySession.TryAdvance | src/app/socks5_listener.cpp:321-395 | the loop over the session's buffer, protocol and phase is the specified step |
| Handshake.ProxySession.OnData | src/app/socks5_listener.cpp:527-530 | a read appends to the buffer and advances the session, a rejected session included |
| Handshake.ProxySession.HandoffToTunnel | src/app/socks5_listener.cpp:276-297 | the handoff carries the rest of the buffer as payload |
| Handshake.GreetingIsStable | src/app/socks5_listener.cpp:19-44 | a decided greeting is decided the same with more bytes |
| Handshake.RequestIsStable | src/app/socks5_listener.cpp:46-136 | a decided request is decided the same with more bytes |
| Handshake.HttpIsStable | src/app/socks5_listener.cpp:147-226 | a complete header block is parsed the same whatever follows |
| Handshake.GreetingExactly | src/app/socks5_listener.cpp:19-44 | a greeting is accepted if and only if the stream starts with a well-formed one, and waited for exactly while that cannot be told |
| Handshake.RequestExactly | src/app/socks5_listener.cpp:46-136 | a request is accepted if and only if the stream starts with a well-formed CONNECT request |
| Handshake.AcceptedIsWellFormed | src/app/socks5_listener.cpp:46-136 | and what is accepted is the address, port and length of that request |
| Handshake.RefusalExactly | src/app/socks5_listener.cpp:46-136 | which malformed request gets which reply code, another command and another address type theirs |
| Handshake.AuthorityExactly | src/app/socks5_listener.cpp:184-220 | an authority is read as a host and port if and only if it is the host, plain or in brackets, a colon and the port's digits |
| Handshake.LineExactly | src/app/socks5_listener.cpp:162-184 | a request line is accepted if and only if it is CONNECT, an authority that is read, and an HTTP version |
| Handshake.SocksRepliesExactly | src/app/socks5_listener.cpp:321-373 | what one read of a SOCKS5 stream is answered with and what becomes of it, by its greeting and request |
| Handshake.CutsDoNotMatter | src/app/socks5_listener.cpp:321-395 | however a cut-free stream is cut into reads, replies, session, target, consumed bytes and payload are those of a single read |
| Handshake.CutIndependenceExactly | src/app/socks5_listener.cpp:321-395 | all cuts of a stream agree with the single read if and only if it is left open; or accepted and not a CONNECT whose header block exceeds 8193 bytes; or rejected by its very last byte, or for its methods with no further complete greeting behind |
| Handshake.RejectionReachesClient | src/app/socks5_listener.cpp:321-395 | a stream refused in one read is refused under every cut: its replies begin with the one-read reply and the close has been requested |
| Handshake.LateGreetingIsServed | src/app/socks5_listener.cpp:334-373 | the input that shows it: a client refused for its methods that greets again before the close is answered and handed off, though in one read the same bytes are refused for good |
| Handshake.LongBlockCutIsRefused | src/app/socks5_listener.cpp:147-158 | a header block beyond the cap, accepted in one read, draws a 400 when cut behind the cap, and is still handed off if its rest arrives before the close |
| Handshake.SocksHandshake | src/app/socks5_listener.cpp:321-371 | for every cut of a well-formed SOCKS5 stream naming an IPv4 address, a domain or an IPv6 address, that host and port are handed off after one method reply, and handshake plus payload are the bytes read |
| Handshake.RequestRoundTrip | src/app/socks5_listener.cpp:46-136 | a built request for an address of any kind parses to its host text and port |
| Handshake.DottedIsInjective | src/app/socks5_listener.cpp:77-84 | the address text determines the four bytes of an IPv4 address |
| Handshake.DottedExactly | src/app/socks5_listener.cpp:77-84 | the IPv4 text is the four bytes in order, in decimal without leading zeros, between dots |
| Handshake.GroupsExactly | src/app/socks5_listener.cpp:105-120 | the IPv6 text is the words in order, high byte first, in hexadecimal, between colons |
| Handshake.HexIs | src/app/socks5_listener.cpp:105-120 | and that hexadecimal is lower-case, without leading zeros, and of the word's value |
| Handshake.GroupsIsInjective | src/app/socks5_listener.cpp:105-120 | the address text determines the bytes of an IPv6 address |
| Handshake.AuthorityRoundTrip | src/app/socks5_listener.cpp:184-220 | host and port written as an authority, in brackets or not, are read back |
| Handshake.ConnectHandshake | src/app/socks5_listener.cpp:147-226 | for every cut of a well-formed CONNECT within the cap the same host and port are handed off, and header block plus payload are the bytes read |

## Left out

- GateSystem.CreditIsNeverEarly: stated for runs of fewer than 2^64 - 1 events, so that 64-bit fence numbers do not wrap; byte counters are unbounded.
- GateSystem.OutstandingFencesInOrder: same bound on the length of the run.
- GateSystem.EchoingPeerIsNeverCondemned: same bound; a judgement by timeout (no echo for the configured time) is a separate branch and can hit an echoing peer whose replies are all lost.
- SendGate.FastRejectIsSafe: a friend number is assumed to keep its key until it is forgotten, as toxcore keeps it; packets are no longer than the open hint.
- SendGate.EchoesStayWithTheirFriend: stated for runs of fewer than 2^64 - 1 events, because the 64-bit ledger counter behind the epochs wraps.
- GateRecovery.RefusedFriendIsAdmittedAgain: the peer delivers the stream and answers, and the ticks' fences are taken; same bound on the length of the run.
- BdpFlowControl.MinimumIsWindowed: assumes sample times that are positive and do not run backwards.
- TokenBucket.GrantedSinceCreation: the clock is positive and monotone, because 0 marks an untouched cursor.
- RateLimiter.FriendRate: a fixed spec over the run, payloads of at most one frame; a reload refills the bucket by design.
- RateLimiter.ReloadSkipsEmptiesExactly: exact for the governing override; an empty entry between two others can also leave the same override with a fuller bucket.
- InboundThrottle.OrderIsConserved: the limiter's verdicts are given per question, so it holds for any limiter; the history restarts when the friend's entry is dropped.
- ThrottledRate.ThrottledRateHolds: one spec over the run, frames no larger than the burst, and the drains' questions one by one rather than grouped into timer events.
- Resume.OkMeansNothingLost: byte offsets are unbounded counts; a tunnel id reused by a new tunnel object after a removal is not followed here but in ResumeTokens.
- ClientRoute.RepliesGoToTheSender: frames the manager originates by itself, not as a reply, are not modelled; the three assignments of a repin are one step.
- ResumeTokens.RunInv: one strand task at a time is taken as given; the tunnel's own states are reduced to alive and aborted.
- TcpConnection.EndOfStreamIsComplete: runs without socket errors, forced closes or throwing callbacks; those are covered by AccountingIsExact. A connection is used once, from Connected on.
- TcpConnection.RefusalIsAnswered: the writable callback is installed for the connection's whole life.
- Handshake.CutsDoNotMatter: how many reads the connection still delivers after a close was requested is left open; the model allows any number. Replies count as sent when they are handed to the connection.
- Handshake.ConnectHandshake: the first line is a CONNECT request and header lines are non-empty and contain no carriage return.
- Rates are reals where the gate computes in floating point; rounding is not modelled.
- TunnelManager and TunnelImpl, their admission, coalescing and teardown, beyond what their call sites fix.
- The server's live and held manager maps, access rules, known-servers records, metrics, logging and the inspect interface.
- toxcore itself, thread creation, memory order, object lifetimes beyond the weak references of resume tokens.
- The read side of a TCP connection, except that it can end it; the peer-close holdback.
- The TCP listener's admission bound, configuration parsing, command line, pipes and file handling.
