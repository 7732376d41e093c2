# ble-gatt verification

A Dafny model of the parts of `ble-gatt` whose guarantees only show over whole runs, with proofs
of those guarantees. `dafny verify dfyconfig.toml` checks everything.

Every component that changes state is modelled as a state with atomic steps (a stretch between two
awaits, or one lock section), and its invariants are proved for every run of those steps. Beside it
stands a class with the source's own fields, whose methods are proved to take exactly the steps of
the main stretches. The remaining steps have no method: those of the environment (BlueZ, the
Android stack, a lock being granted, a deadline passing) and those that only set a flag or give
something back (a stream closed, a channel dropped or closed, a queued call cancelled, a send done).

| modules | what they model |
|---|---|
| `Fragment`, `Reassembly`, `Messages`, `Delivery` | the datagram tier: header, splitting, the bounded reassembler, many senders sharing one sink, end-to-end delivery |
| `Serve`, `ServeAnswers` | the serve loop that keeps one central at a time, by generation; what it asks of the driver, whom it admits and when it ends |
| `LinkState`, `PeerLink`, `PeerLinkSafety`, `PeerLinkEvents`, `RedialBound`, `PeerLinkAnswers` | the pure link machines and the worker that composes them per peer: coupling, events, redial bound, and what its consumers can count on |
| `Quarantine`, `QuarantineRuns`, `DialLocks`, `Discovery`, `DiscoveryAnswers`, `Sessions` | the Linux driver: cancelled dials, per-address locks, shared discovery, advertisement generations |
| `GattQueue`, `PreparedWrites` | the Android bridge: operation queues with retries and cancellation, queued writes |
| `IrohLink` | the two bounded queues of an iroh link and the barrier through them |
| `Basics` | options, bytes, elapsed time, set sizes |

Times are natural numbers; `Elapsed` saturates at zero as Rust's `duration_since` does. Peers,
characteristics and tasks are natural numbers. A `HashMap` whose iteration order matters is
walked in an arbitrary order.

## Where the code differs from its own words

- `RetryBudget::backoff` says an empty list means no redial. A dial that runs into its deadline
  is redialled all the same until the give-up time; `RedialBound.EmptyBackoffRedialsAfterDeadline`
  gives the exact condition.
- Dial sessions are meant to be unique. They restart from the time a clock read takes, so two
  dials of one peer can share one; `PeerLinkEvents.ReusedSessionRepeatsUp` is a run where that
  shows, and `AlternatesIffNoReuse` the exact condition. `UpAndDownAlternate` takes
  freshness as a hypothesis; the coupling invariant, the link cap, the generation argument and
  the redial bound do not need it.
- Discovery is meant never to be lost track of. A definite answer to a stop, and an adapter that is
  not discovering, do not prove that nothing is left to stop while a StartDiscovery whose caller
  gave up may still be open at BlueZ: `Discovery.CancelledScanLosesDiscovery` is a run in which
  every call is answered, and `GivenUpStartCanBeLost` shows that any such start can end so.
  `DroppingTheDebtIsExact` and `TrackedExactly` say exactly when a run keeps track;
  `DiscoveryIsTracked` and `TrackedIfNoStartIsGivenUp` say it in terms the driver can see.
- A call of `send` that fails or is cancelled in its last write may still have been delivered:
  `Delivery.OrderedDelivery` states the exact condition under which the messages delivered are
  those whose call returned Ok.
- `RetryBudget::give_up_after` is said to count from the first failed attempt. It counts from the
  first dial after a reset, or from the loss of a link.
- `reassembly.rs` speaks of a 16-bit message id in two comments; the id is 32 bits wide.

## Model

| member | source | states |
|---|---|---|
| Fragment.WriteTo | ble-gatt/src/profile/datagram/fragment.rs:45-49 | appends the 8-byte little-endian wire form of a header to what is already in the buffer |
| Fragment.ParseIffPrinted | ble-gatt/src/profile/datagram/fragment.rs:44-63 | for all byte strings: a buffer parses to a header and body exactly when it is that header's wire form followed by that body |
| Fragment.Split | ble-gatt/src/profile/datagram/fragment.rs:73-109 | the loop with its 16-bit casts meets the split specification for every budget and payload, both errors included; no index or total is truncated |
| Fragment.ChunksRejoin | ble-gatt/src/profile/datagram/fragment.rs:90-107 | the pieces of any payload rejoin to it and none exceeds the budget |
| Fragment.ChunkCountIsCeiling | ble-gatt/src/profile/datagram/fragment.rs:81-85 | their number is the exact ceiling, one for an empty payload |
| Fragment.SendCheckSuffices | ble-gatt/src/profile/datagram/mod.rs:286-288 | a payload within the effective limit is never refused by `split`, and its fragment count is the ceiling and at most 65535 |
| Fragment.EveryFragmentFitsOneWrite | ble-gatt/src/hal/mod.rs:63-67 | for every negotiated MTU and configured limit, a payload within the limit becomes the exact ceiling of fragments; each, with the ATT header, is within the MTU and hence within 512 bytes, and all but the last fill the write |
| Fragment.LimitIsExact | ble-gatt/src/profile/datagram/mod.rs:280-288 | a payload is within the channel's limit exactly when it is within the configured one and within usize and needs at most 65535 fragments |
| Fragment.LimitIsTight | ble-gatt/src/profile/datagram/mod.rs:280-288 | where the fragment count is what lowers the limit, one byte more could not be sent |
| Reassembly.Reassembler.Expire | ble-gatt/src/profile/datagram/reassembly.rs:81-85 | keeps exactly the partial messages younger than the timeout |
| Reassembly.Reassembler.EvictIfAtCapacity | ble-gatt/src/profile/datagram/reassembly.rs:196-211 | at capacity the entry with the least start time goes, the lowest id among equals |
| Reassembly.Reassembler.Accept | ble-gatt/src/profile/datagram/reassembly.rs:87-145 | table and answer are those of the specification on every path, all four rejections included |
| Reassembly.Reassembler.Store | ble-gatt/src/profile/datagram/reassembly.rs:146-193 | duplicate, restart on a differing duplicate, overflow, storage and completion, by the specification |
| Reassembly.RunKeepsBounds | ble-gatt/src/profile/datagram/reassembly.rs:81-211 | after any run of fragments, ticks and gaps: at most max(1, K) partial messages, each with 1 to total-1 fragments below total and the exact summed length, within the limit |
| Reassembly.CountNeverTruncates | ble-gatt/src/profile/datagram/reassembly.rs:179 | in every reachable table the 16-bit count compared with the total is the true count |
| Reassembly.RefusalsAreExact | ble-gatt/src/profile/datagram/reassembly.rs:87-114 | an empty message, an index out of range and a contradicting total are refused exactly for the fragments that have them, the last only while the earlier message is within its timeout, and it then loses its entry |
| Reassembly.TooLargeIsExact | ble-gatt/src/profile/datagram/reassembly.rs:94-165 | a fragment is refused as too large exactly when it alone, what its first fragment declares, or what is held with it exceeds the limit; then nothing of the message stays, unless it was the fragment alone |
| Reassembly.NothingOutlivesItsTimeout | ble-gatt/src/profile/datagram/reassembly.rs:81-101 | after any fragment that gets as far as the clock, every message still held is within its timeout or was started by it |
| Reassembly.ArrivalsProlongNothing | ble-gatt/src/profile/datagram/reassembly.rs:146-175 | a held message keeps the time it was started whatever arrives for it, unless a differing copy of a held fragment starts it over with that copy alone |
| Reassembly.EvictionSparesTheYounger | ble-gatt/src/profile/datagram/reassembly.rs:125-211 | a fragment costs another live message its place only when it opens one at capacity; then exactly one goes, and none that stays is older |
| Reassembly.NoStaleCopies | ble-gatt/src/profile/datagram/reassembly.rs:146-193 | whatever arrives, ids reused at will: every completed message is made, index by index, of the copies that arrived last, all declaring its total and none from before the last gap |
| Messages.DeclaredSizeAccepts | ble-gatt/src/profile/datagram/reassembly.rs:109-135 | the declared-size product check never refuses a fragment of a message within the limit, not even the short last one |
| Messages.FragmentProgress | ble-gatt/src/profile/datagram/reassembly.rs:87-193 | a genuine fragment of a message within the limit is never refused; it completes the message, with its payload, exactly when the held indices become all of them |
| Messages.NoBlending | ble-gatt/src/profile/datagram/reassembly.rs:87-194 | whatever genuine fragments of messages with distinct ids arrive, lost, repeated, reordered, interleaved, expired or evicted: every completion under an id is byte for byte the payload sent under it |
| Messages.FollowsTheBoard | ble-gatt/src/profile/datagram/reassembly.rs:87-193 | for any interleaving of messages within the limits, the reassembler answers exactly as a reference that only keeps which indices are held |
| Messages.AnyOrderCompletes | ble-gatt/src/profile/datagram/reassembly.rs:146-193 | any order of one message's fragments, with repetitions: all answers are pending until the last missing one, which completes |
| Delivery.SharedSink.BeginSend | ble-gatt/src/profile/datagram/mod.rs:635-651 | on a channel with room for payload a call is issued if and only if the payload can be sent; it then waits for the sink with its payload and the next id, before anything is written |
| Delivery.SendIsAcceptedExactly | ble-gatt/src/profile/datagram/mod.rs:635-651 | a payload is accepted exactly when it is within the configured limit and within usize and needs at most 65535 fragments; it becomes a waiting call of its own with the next id, and a refused one uses up no id |
| Delivery.SharedSink.LockSink | ble-gatt/src/profile/datagram/mod.rs:659 | the call becomes the holder and the last in lock order |
| Delivery.SharedSink.FragmentWritten | ble-gatt/src/profile/datagram/mod.rs:660-718 | one fragment goes on the wire; after the last one the call returns Ok and the sink is free |
| Delivery.SharedSink.FragmentAbandoned | ble-gatt/src/profile/datagram/mod.rs:666-714 | a failed or cancelled write frees the sink, whether or not the fragment reached the link |
| Delivery.ReassemblyTask.OnEvent | ble-gatt/src/profile/datagram/mod.rs:816-889 | short writes are ignored, completions are handed over, the idle timer expires |
| Delivery.ReassemblyTask.OnGap | ble-gatt/src/profile/datagram/mod.rs:829-841 | a reported gap replaces the reassembler and delivers nothing |
| Delivery.ShortWritesAreIgnored | ble-gatt/src/profile/datagram/mod.rs:842-852 | writes too short to be fragments, wherever they fall, change nothing of what is delivered |
| Delivery.RunKeepsInv | ble-gatt/src/profile/datagram/mod.rs:634-720 | over all interleavings of handles: the wire is, in lock order, one block of leading fragments per call, and only the holder's block is still growing |
| Delivery.BlocksAreReceived | ble-gatt/src/profile/datagram/mod.rs:801-891 | a lossless FIFO link yields exactly the payloads of the blocks that are whole, whatever the timer does and however many unfinished messages the table holds |
| Delivery.OrderedDelivery | ble-gatt/src/profile/datagram/mod.rs:634-720 | end to end: the receiver gets exactly the messages whose fragments all reached the link, in sink-lock order; these are the calls that returned Ok, once each, if and only if no failed call had its last fragment reach the link |
| Delivery.FailedWritesHideNothing | ble-gatt/src/profile/datagram/mod.rs:666-714 | if a failed write delivers nothing, no failed call was delivered |
| Serve.ServeLoop.ReleasePeer | ble-gatt/src/profile/datagram/mod.rs:748-774 | a release counts only for the generation that holds the slot; then the tenure ends, and its central is disconnected unless it is to be kept |
| Serve.ServeLoop.OnConnectedEvent | ble-gatt/src/profile/datagram/mod.rs:1259-1405 | releases are drained first; then a repeat is ignored, a second central refused and disconnected, or a channel of the next generation offered to the accept queue with its three outcomes |
| Serve.ServeLoop.OnWrittenEvent | ble-gatt/src/profile/datagram/mod.rs:1406-1482 | a write goes to the channel of its peer's generation, or is dropped with or without a gap being reported |
| Serve.ServeLoop.OnDisconnectedEvent | ble-gatt/src/profile/datagram/mod.rs:1483-1517 | a loss of an earlier session is ignored; any other ends the peer's tenure |
| Serve.ServeLoop.OnLaggedEvent | ble-gatt/src/profile/datagram/mod.rs:1523-1555 | every served session ends with a gap reported and its peer disconnected |
| Serve.ServeLoop.OnRadioLostEvent | ble-gatt/src/profile/datagram/mod.rs:1556-1569 | every served session ends |
| Serve.ServeLoop.OnReleaseEvent | ble-gatt/src/profile/datagram/mod.rs:1212-1245 | one queued release; the loop ends once the stream is closed and nobody is served |
| Serve.SingleCentral | ble-gatt/src/profile/datagram/mod.rs:1194-1569 | in every reachable state at most one peer holds the slot, a handed-out channel is active exactly while its own generation holds it and the application has not ended the link, tenures do not overlap, and what a channel's reassembler was given is exactly what its own peer had queued during its tenure |
| Serve.TenuresEndByTheirOwnEvents | ble-gatt/src/profile/datagram/mod.rs:755-761 | in every reachable state a tenure ends by the events that concern its holder, always, and by nothing else: stale releases, stale-session losses and other centrals leave the slot with its holder |
| Serve.NextCentralIsAdmitted | ble-gatt/src/profile/datagram/mod.rs:1264-1272 | in every reachable state a dropped channel whose release is still queued does not make the next central be refused |
| ServeAnswers.RequestsAreExact | ble-gatt/src/profile/datagram/mod.rs:748-774 | in every reachable state each step asks the driver to drop exactly the links it must: a dropped holder's unless its channel was closed, none for a stale release, a second central's, one's that the accept queue has no room for, the holder's after a lag, and the one the application names |
| ServeAnswers.ClosedCentralIsKept | ble-gatt/src/profile/datagram/mod.rs:758-771 | over every run, in terms of the application's own calls: handling the release of a dropped holder asks for its link to be dropped if and only if that channel was never closed |
| ServeAnswers.FlagsAreTheApplications | ble-gatt/src/profile/datagram/mod.rs:571-612 | over every run a channel is marked closed, disconnected or dropped exactly when the application did that to that very channel, or when the accept queue did not take it |
| ServeAnswers.AdmissionIsExact | ble-gatt/src/profile/datagram/mod.rs:1259-1405 | in every reachable state a central gets a channel of its own if and only if connections are still taken and no channel the application still has holds the slot; it holds the slot exactly when the accept queue took it |
| ServeAnswers.GapsAreReportedExactly | ble-gatt/src/profile/datagram/mod.rs:1406-1482 | in every reachable state a channel's gap is raised exactly when it holds the slot and its own write could not be queued in time or events were missed |
| ServeAnswers.LoopEndsExactly | ble-gatt/src/profile/datagram/mod.rs:1212-1258 | in every reachable state the loop goes on while it serves someone or takes connections, and ends exactly with its events, when a step leaves it idle after the stream was closed, or when a central finds it closed |
| LinkState.CentralConserved | ble-gatt/src/connection/link_state.rs:235-310 | over any run: connections opened equal those closed by an emitted loss or a confirmed teardown plus the one still there |
| LinkState.PeripheralConserved | ble-gatt/src/connection/link_state.rs:373-420 | over any run: slots taken equal slots freed plus the one still held |
| LinkState.FirstWordDecidesTheDial | ble-gatt/src/connection/link_state.rs:243-262 | over any run: a dial stays open until the first event that decides it, and becomes a connection of its own session exactly when that is its success |
| LinkState.RequestedDisconnectEndsExactly | ble-gatt/src/connection/link_state.rs:264-283 | over any run without a new dial: a connection to be closed is there until the platform confirms, the radio goes or its window is over, and no longer |
| LinkState.ConnectionStandsUntilLost | ble-gatt/src/connection/link_state.rs:274-283 | over any run without a new dial or a request to close: a connection stands until it drops or the radio goes, and no longer |
| LinkState.RadioOffUntilBack | ble-gatt/src/connection/link_state.rs:239-252 | over any run a radio loss leaves nothing and lets nothing be dialled until the radio is back |
| LinkState.DrainsUntilConfirmed | ble-gatt/src/connection/link_state.rs:285-299 | over any run, at any times: an abandoned dial's peer cannot be dialled before its cleanup is confirmed or the radio goes |
| LinkState.SessionIsTheLastDials | ble-gatt/src/connection/link_state.rs:203-300 | over any run a dial or connection carries the session of the last dial started |
| LinkState.SlotIsTheLastCentrals | ble-gatt/src/connection/link_state.rs:373-420 | over any run the server slot is that of the central that connected last |
| LinkState.RequestedDropEndsExactly | ble-gatt/src/connection/link_state.rs:395-415 | over any run without a new central: one to be dropped keeps its slot until the platform confirms, it drops itself, the radio goes or the window is over, and no longer |
| LinkState.CentralStaysUntilItLeaves | ble-gatt/src/connection/link_state.rs:388-402 | over any run without a new central or a request to drop: a central keeps its slot until it unsubscribes, drops or the radio goes, and no longer, and is served exactly from its first subscription on |
| LinkState.ServerOffUntilBack | ble-gatt/src/connection/link_state.rs:379-390 | over any run a radio loss leaves no central a slot until the radio is back |
| PeerLink.PeerLinkWorker.Track | ble-gatt/src/connection/peer_link.rs:779-806 | a new peer gets its role and clock; a known one is left alone |
| PeerLink.PeerLinkWorker.Untrack | ble-gatt/src/connection/peer_link.rs:518-527 | the peer is forgotten, with a Down if it had a link |
| PeerLink.PeerLinkWorker.Retry | ble-gatt/src/connection/peer_link.rs:528-540 | the step the source takes: budget and give-up are reset, and a dialer's clock starts with its next dial |
| PeerLink.PeerLinkWorker.PumpDials | ble-gatt/src/connection/peer_link.rs:808-862 | dials start in address order for eligible peers while links and dials in flight leave room |
| PeerLink.PeerLinkWorker.HandleDialResult | ble-gatt/src/connection/peer_link.rs:875-934 | a result of another session is dropped; success installs a link of the next generation, failure backs off |
| PeerLink.PeerLinkWorker.HandleInbound | ble-gatt/src/connection/peer_link.rs:686-728 | an inbound channel is refused for a dialer, a linked peer, a full cap or an unusable radio, and otherwise installed |
| PeerLink.PeerLinkWorker.HandleLinkGone | ble-gatt/src/connection/peer_link.rs:936-957 | a notice of another generation changes nothing; its own ends the link with a Down |
| PeerLink.PeerLinkWorker.HandleRadioChanged | ble-gatt/src/connection/peer_link.rs:1064-1110 | losing the radio resets every peer with one Down per link; a usable radio brings every machine back |
| PeerLink.PeerLinkWorker.HandleTick | ble-gatt/src/connection/peer_link.rs:1124-1156 | deadlines of dials and of the give-up clocks, for every peer |
| PeerLinkSafety.CouplingInEveryState | ble-gatt/src/connection/peer_link.rs:1064-1133 | in every reachable state: links plus dials in flight at most the cap; a link exactly while a dialer is Connected or an acceptor Serving; a dial task exactly while Dialing; nothing on an unusable radio and no machine off on a usable one |
| PeerLinkSafety.PumpEffect | ble-gatt/src/connection/peer_link.rs:816-862 | the pump starts at most one dial per peer, only of eligible peers, within the budget, and changes nothing else |
| PeerLinkEvents.UpAndDownAlternate | ble-gatt/src/connection/peer_link.rs:875-957 | per address, across untracking and re-tracking: Up and Down alternate starting with Up, and a link is held exactly when the last is Up, of that generation |
| PeerLinkEvents.NoticeTakesOnlyItsOwnLink | ble-gatt/src/connection/peer_link.rs:936-982 | in every reachable state a queued link-gone notice can only end the one link announced with its generation, and no generation is announced twice |
| PeerLinkEvents.AlternatesIffNoReuse | ble-gatt/src/connection/peer_link.rs:894-925 | for every run, fresh sessions or not: Up and Down of an address alternate if and only if no success carrying the session of its link already up is ever handled |
| PeerLinkEvents.ReusedSessionRepeatsUp | ble-gatt/src/connection/peer_link.rs:829-843 | a concrete run in which two dials get the same session and the consumer hears Up twice |
| RedialBound.DialsAreCounted | ble-gatt/src/connection/peer_link.rs:841-848 | between resets the attempts counter grows by exactly the dials that begin |
| RedialBound.DialsAreBounded | ble-gatt/src/connection/peer_link.rs:959-973 | between resets at most 1 + ceil(give_up_after / pace) dials begin, the pace being the least backoff entry or the dial deadline, for any monotone clock and any timing |
| RedialBound.GivenUpDialsNoMore | ble-gatt/src/connection/peer_link.rs:830-834 | over any run, a dialer that gave up begins no dial until it is retried, the radio is lost or it is tracked afresh; a late success and the loss of its link do not revive it |
| PeerLinkAnswers.PumpStartsAllItMay | ble-gatt/src/connection/peer_link.rs:808-862 | with a usable radio the pump starts min(room under the cap, eligible peers) dials, the lower addresses first; without one, none |
| PeerLinkAnswers.RetriedPeerIsDialed | ble-gatt/src/connection/peer_link.rs:528-540 | a retry of any idle dialer without a link, whatever it had been through, and the next pump: with a usable radio and room, it is dialled once if no other peer is to be |
| PeerLinkAnswers.RadioBounceRevives | ble-gatt/src/connection/peer_link.rs:1064-1110 | in every reachable state: once the radio is lost and back, no peer has a link, a dial or has given up, and every dialer may be dialled at once |
| PeerLinkAnswers.LostLinkStartsOver | ble-gatt/src/connection/peer_link.rs:936-957 | in every reachable state: each reset leaves no dial counted, and a dialer that loses its link may be dialled at once unless it had given up |
| PeerLinkAnswers.LinksComeAndGoExactly | ble-gatt/src/connection/peer_link.rs:875-957 | in every reachable state, for every step: a peer gets a link, of the next generation and with one Up, exactly on its own dial's success or when its central may be let in; loses it, with one Down, exactly on its own notice, the loss of the radio or untracking; and hears nothing else |
| PeerLinkAnswers.DialsAndPatienceEndExactly | ble-gatt/src/connection/peer_link.rs:1124-1156 | in every reachable state, for every step: a dial ends exactly by its own result, at its deadline, with the radio or by untracking; a peer gives up exactly when its time is over without a link on a usable radio, or its own dial fails with no time or no wait left, and is revived exactly by a retry, a radio loss or a central let in |
| PeerLinkAnswers.FailedDialWaits | ble-gatt/src/connection/peer_link.rs:959-973 | after a dial fails the next may start exactly once the entry of the backoff list for that attempt has passed, the last one repeating, unless the peer has given up |
| PeerLinkAnswers.AcceptorWaitsItsDeadline | ble-gatt/src/connection/peer_link.rs:1124-1156 | over every run a waited-for peer gives up at a tick exactly when its deadline has passed since it was tracked, retried, or lost the radio or its link, whichever was last |
| PeerLinkAnswers.ExactlyOneSideDials | ble-gatt/src/connection/peer_link.rs:779-788 | of two symmetric sides exactly one dials the other |
| Quarantine.LinuxDialing.BeginConnect | ble-gatt/src/drivers/linux.rs:1655-1679 | refused exactly for a quarantined address or one with a dial in flight |
| Quarantine.LinuxDialing.OnLocked | ble-gatt/src/drivers/linux.rs:1690-1711 | the second quarantine check, under the lock |
| Quarantine.LinuxDialing.Register | ble-gatt/src/drivers/linux.rs:1712-1740 | the generation is recorded before a permit is reserved, and taken back when there is none |
| Quarantine.LinuxDialing.OnReply | ble-gatt/src/drivers/linux.rs:1773-1812 | an answered Connect disarms the guard; an error removes the own generation only |
| Quarantine.LinuxDialing.OnTimedOut | ble-gatt/src/drivers/linux.rs:1780-1797 | the own generation is removed and the guard stays armed |
| Quarantine.LinuxDialing.OnGuardDropped | ble-gatt/src/drivers/linux.rs:1247-1302 | own entry removed, quarantine published, cleanup task spawned with the guard's permit, in this order |
| Quarantine.LinuxDialing.Unwind | ble-gatt/src/drivers/linux.rs:1241-1245 | the lock is released before the in-flight claim |
| Quarantine.LinuxDialing.OnCleanupLocked | ble-gatt/src/drivers/linux.rs:1329-1366 | one attempt starts under the lock of the address, which is then released |
| Quarantine.LinuxDialing.OnDisconnectResolved | ble-gatt/src/drivers/linux.rs:1375-1418 | a clean outcome ends the loop, any other lets the task start again |
| Quarantine.LinuxDialing.OnCleanupEnded | ble-gatt/src/drivers/linux.rs:1440-1442 | the quarantine is lifted before the permit returns |
| Quarantine.QuarantineSafety | ble-gatt/src/drivers/linux.rs:1247-1442 | over all interleavings and cancellations: at most one live Connect per address, never beside a cleanup that may disconnect it; a quarantined address has exactly one owner and no dialed entry; permit holders and cleanup tasks add up with the free permits to four; no claim or lock outlives its task |
| Quarantine.DefensiveBreakNeverTaken | ble-gatt/src/drivers/linux.rs:1348-1358 | in every reachable state the check for a newer dial before a cleanup Disconnect finds none |
| QuarantineRuns.LiftedOnlyWhenClean | ble-gatt/src/drivers/linux.rs:1376-1440 | over every run: an address leaves the quarantine only by a cleanup task of its own whose last act before was to find it clean, by a Disconnect that BlueZ reported done or needless or a device it no longer has; in that very stretch, unless the task had done so before |
| QuarantineRuns.FailedAttemptIsRetried | ble-gatt/src/drivers/linux.rs:1406-1427 | in every reachable state a failed cleanup attempt leaves the address quarantined and another able to start once the lock is free |
| QuarantineRuns.NoAttemptAfterACleanOne | ble-gatt/src/drivers/linux.rs:1376-1405 | over every run a task whose attempt came back clean starts no other |
| QuarantineRuns.AbandonedIsCleanedUp | ble-gatt/src/drivers/linux.rs:1247-1302 | over every run: a dial given up while Connect ran hands its address, quarantined, to a cleanup task, unless it still holds it; only BlueZ's answer prevents that |
| QuarantineRuns.AnsweredIsNotCleanedUp | ble-gatt/src/drivers/linux.rs:1768-1779 | over every run a dial that BlueZ answered is neither quarantined nor cleaned up |
| QuarantineRuns.DialsAreRefusedExactly | ble-gatt/src/drivers/linux.rs:1655-1733 | in every reachable state a dial is refused exactly while a task answers for a quarantine of its address, another call has claimed it, or four dials and cleanups hold every permit |
| QuarantineRuns.DialedIsEarned | ble-gatt/src/drivers/linux.rs:1716-1812 | over every run an entry of `dialed` belongs to a dial still open or to one that BlueZ reported connected |
| QuarantineRuns.SuccessEstablishes | ble-gatt/src/drivers/linux.rs:1768-1774 | in every reachable state BlueZ's success establishes the link, unless its loss was reported first |
| QuarantineRuns.EstablishedStaysDialed | ble-gatt/src/drivers/linux.rs:1716-1717 | over every run the entry of an established link outlives everything but the report of its own loss and a new dial of its address |
| DialLocks.LockMap.Retain | ble-gatt/src/drivers/linux.rs:651 | drops exactly the entries that only the map refers to |
| DialLocks.LockMap.Ask | ble-gatt/src/drivers/linux.rs:648-655 | after pruning, the task refers to the entry of its address, made anew if it was dropped |
| DialLocks.PruningLocksExclude | ble-gatt/src/drivers/linux.rs:644-656 | any lock held or awaited is the one in the map; no two tasks hold a lock for one address; no two addresses share a lock |
| DialLocks.MapNeverOutgrowsItsTasks | ble-gatt/src/drivers/linux.rs:642-652 | after every run, once a task has asked, the entries are exactly the addresses some task refers to |
| Discovery.DiscoveryBus.OnLocked | ble-gatt/src/drivers/linux.rs:346-358 | under the lock a scan reads the property or starts, and a stop is sent only while owed |
| Discovery.DiscoveryBus.OnStartReplied | ble-gatt/src/drivers/linux.rs:358-391 | success counts the scan, InProgress clears the wedge once, only a definite error clears the debt |
| Discovery.DiscoveryBus.OnStopReplied | ble-gatt/src/drivers/linux.rs:397-416 | a stop that succeeded clears the debt, one that failed reads the property first |
| Discovery.DiscoveryBus.OnReadForStop | ble-gatt/src/drivers/linux.rs:406-430 | the debt is dropped only when the adapter is not discovering |
| Discovery.DiscoveryBus.OnCleared | ble-gatt/src/drivers/linux.rs:363-378 | whatever the recovery stop answered, the start is tried once more |
| Discovery.DiscoveryBus.OnGuardDropped | ble-gatt/src/drivers/linux.rs:445-462 | the last guard schedules the stop |
| Discovery.DiscoveryIsTracked | ble-gatt/src/drivers/linux.rs:346-432 | over all interleavings, cancellations and lost replies, and whatever order BlueZ answers in: if the debt is dropped only while no start sent since it arose has been given up on (or, by a stop that succeeded, on the only one), BlueZ lists this client, or has a start of it open, only while running is set; so with no scan live, discovery is off for good or a stop is owed |
| Discovery.TrackedIfNoStartIsGivenUp | ble-gatt/src/drivers/linux.rs:358-378 | if no StartDiscovery is cancelled or timed out, every run is tracked, whatever becomes of the stops |
| Discovery.GivenUpStartCanBeLost | ble-gatt/src/drivers/linux.rs:352-358 | after any run, cancelling the caller of an unanswered start leaves a way, without giving up on any other, to BlueZ listing the client with no scan live and no stop owed |
| Discovery.DroppingTheDebtIsExact | ble-gatt/src/drivers/linux.rs:380-430 | for every step of every task: track is kept if and only if the step, should it drop the debt (definite start error, successful stop or off read), finds the client unlisted and no start open |
| Discovery.TrackedExactly | ble-gatt/src/drivers/linux.rs:346-432 | a run is tracked at every point if and only if each of its steps that drops the debt does so rightly |
| Discovery.CancelledScanLosesDiscovery | ble-gatt/src/drivers/linux.rs:397-430 | a concrete run, every call answered, after which BlueZ discovers for good with no scan live and no stop owed |
| Discovery.LockIsNeverLeaked | ble-gatt/src/drivers/linux.rs:397-402 | in every run the lock is held only by a task that exists, and an owed stop that gets it is sent |
| DiscoveryAnswers.ScansCallsAndDebtAreExact | ble-gatt/src/drivers/linux.rs:346-432 | in every reachable state, for every step: a scan counts exactly from its delivery to the drop of its guard; a call goes out exactly for its reason, so scans that find discovery on share it; and the debt arises with a start and goes exactly with a definite error, a successful stop or an off read |
| DiscoveryAnswers.CallersAreDoneExactly | ble-gatt/src/drivers/linux.rs:346-432 | in every state of the invariant a caller is done exactly when it has its answer, by each way there is, or is cancelled |
| DiscoveryAnswers.LastGuardOwesTheStop | ble-gatt/src/drivers/linux.rs:445-462 | dropping a guard schedules the stop if and only if it was the last and discovery is marked as running |
| DiscoveryAnswers.OwedStopIsSent | ble-gatt/src/drivers/linux.rs:397-403 | over every run a scheduled stop stays until it is cancelled or gets the lock, and is then sent if no scan is live and discovery runs |
| DiscoveryAnswers.NoLiveScanIsStopped | ble-gatt/src/drivers/linux.rs:397-403 | over every run no scan is live from the moment a stop for want of scans is sent until its caller is done |
| Sessions.PeripheralServer.ReserveGeneration | ble-gatt/src/drivers/linux.rs:1886-1899 | an advertise reserves a number never used before |
| Sessions.PeripheralServer.SwitchOver | ble-gatt/src/drivers/linux.rs:2115-2138 | publishing and releasing the old generation's centrals is one step |
| Sessions.PeripheralServer.ReleaseServed | ble-gatt/src/drivers/linux.rs:593-609 | each served peer is announced exactly once and forgotten |
| Sessions.PeripheralServer.BeginStopping | ble-gatt/src/drivers/linux.rs:2225-2234 | a stop invalidates the generation first |
| Sessions.PeripheralServer.OnWriteRequest | ble-gatt/src/drivers/linux.rs:1990-2053 | a write of another generation has no effect; otherwise the peer is admitted or announced again under its session |
| Sessions.PeripheralServer.OnNotifySession | ble-gatt/src/drivers/linux.rs:936-968 | a subscription admits a peer that is not served, under the current generation only |
| Sessions.PeripheralServer.OnWatchEnded | ble-gatt/src/drivers/linux.rs:1069-1082 | a watcher ends only the session it was armed for |
| Sessions.SessionsAreConserved | ble-gatt/src/drivers/linux.rs:926-969 | over all stop, re-advertise and watcher races: announcements come only from the published generation, sessions are opened with fresh numbers and ended once, and openings minus losses equal the served peers |
| Sessions.PublishedStrictlyIncrease | ble-gatt/src/drivers/linux.rs:528-532 | published generations strictly increase |
| Sessions.LossBetweenSessions | ble-gatt/src/drivers/linux.rs:945-964 | between two sessions of a peer there is a Disconnected of it |
| Sessions.SessionBetweenLosses | ble-gatt/src/drivers/linux.rs:1069-1082 | between two Disconnected of a peer there is a Connected of it |
| Sessions.HandlersAreHeardExactly | ble-gatt/src/drivers/linux.rs:1990-2053 | in every reachable state: a write handled under the published generation is delivered right after its peer's session is announced, old or new; a subscription opens a session exactly for a peer without one; a watcher ends exactly its own; older handlers and watchers are not heard |
| Sessions.SwitchingOverEndsEverySession | ble-gatt/src/drivers/linux.rs:2115-2138 | in every reachable state publishing, and the end of a stop, leave no peer with a session, and nothing before them ends any |
| Sessions.EveryOpenSessionIsWatched | ble-gatt/src/drivers/linux.rs:1040-1082 | in every reachable state each open session has its watcher, whose end is heard as the loss of exactly that session |
| GattQueue.GattBridge.Attempt | tauri-plugin-ble-gatt/android/src/main/kotlin/dev/blegatt/BleGattBridge.kt:792-844 | session check, queueing on the first attempt only, start failure, platform call, retry scheduling and exhaustion |
| GattQueue.GattBridge.Issue | tauri-plugin-ble-gatt/android/src/main/kotlin/dev/blegatt/BleGattBridge.kt:785-787 | the first attempt of a new operation |
| GattQueue.GattBridge.RunRetry | tauri-plugin-ble-gatt/android/src/main/kotlin/dev/blegatt/BleGattBridge.kt:795-799 | a retry acts only if it still finds its own entry |
| GattQueue.GattBridge.CancelPendingOperation | tauri-plugin-ble-gatt/android/src/main/kotlin/dev/blegatt/BleGattBridge.kt:748-754 | only an unclaimed retry is cancelled, and then it leaves every queue |
| GattQueue.GattBridge.OnCompleted | tauri-plugin-ble-gatt/android/src/main/kotlin/dev/blegatt/BleGattBridge.kt:561-592 | the owner's completion pops the first id of its queue |
| GattQueue.GattBridge.Tell | ble-gatt/src/drivers/android.rs:1912-1965 | Rust resolves its waiter only for the id it waits for |
| GattQueue.OperationsAreAttributed | tauri-plugin-ble-gatt/android/src/main/kotlin/dev/blegatt/BleGattBridge.kt:561-652 | in every reachable state every completion pops and reports the id of the operation whose platform call it completes, no id is reported twice, and no operation is put to the platform more than 1 + 6 times |
| GattQueue.AttemptsAreAnsweredTruly | tauri-plugin-ble-gatt/android/src/main/kotlin/dev/blegatt/BleGattBridge.kt:792-844 | in every reachable state: an operation that cannot start, or whose session is gone, gets exactly one failure; a refused one is tried again until its seventh refusal and then gets exactly one failure; an accepted one gets no answer yet; a retry that was cancelled does nothing |
| GattQueue.SuccessIsThePlatforms | tauri-plugin-ble-gatt/android/src/main/kotlin/dev/blegatt/BleGattBridge.kt:561-592 | in every reachable state a step reports at most one operation, and success only when it delivers the completion of that operation's accepted platform call |
| GattQueue.CompletionsAreThePlatforms | tauri-plugin-ble-gatt/android/src/main/kotlin/dev/blegatt/BleGattBridge.kt:561-592 | in every reachable state a platform call is under way only from the attempt that was accepted, and completions are those calls in order |
| GattQueue.CallerIsToldItsOwn | ble-gatt/src/drivers/android.rs:1912-1965 | in every reachable state the waiting caller gets its answer exactly when its own operation is reported |
| GattQueue.GuardFreesTheConnection | ble-gatt/src/drivers/android.rs:2149-2271 | once the guard of an abandoned call is gone its operation has no retry and the connection is free; another operation's guard changes nothing for the caller |
| GattQueue.CancelledRetryNeverFires | ble-gatt/src/drivers/android.rs:2149-2271 | after a scheduled retry is cancelled, the platform is never called for it again and it is never reported, however its dispatch raced the cancellation |
| PreparedWrites.PreparedWriteServer.Prepare | tauri-plugin-ble-gatt/android/src/main/kotlin/dev/blegatt/BleGattBridge.kt:1194-1206 | a chunk is staged under its offset, replacing an earlier one there |
| PreparedWrites.PreparesAreStaged | tauri-plugin-ble-gatt/android/src/main/kotlin/dev/blegatt/BleGattBridge.kt:1194-1206 | any number of Prepare Writes by any peers leave at each place the last chunk prepared there, and at every other place what it had |
| PreparedWrites.FindEnd | tauri-plugin-ble-gatt/android/src/main/kotlin/dev/blegatt/BleGattBridge.kt:1250-1264 | the ascending walk reports a gap exactly when some chunk starts beyond a position no chunk covers |
| PreparedWrites.Assemble | tauri-plugin-ble-gatt/android/src/main/kotlin/dev/blegatt/BleGattBridge.kt:1250-1268 | the assembled value ends where the farthest chunk ends, and each byte is that of the covering chunk with the greatest offset, never default fill |
| PreparedWrites.SlicesAssemble | tauri-plugin-ble-gatt/android/src/main/kotlin/dev/blegatt/BleGattBridge.kt:1250-1268 | chunks cut out of a value that together cover it assemble to that value, in any order and with overlaps |
| PreparedWrites.LongWriteComesThrough | tauri-plugin-ble-gatt/android/src/main/kotlin/dev/blegatt/BleGattBridge.kt:1194-1268 | pieces of a value prepared in any order, repeated or overlapping, among whatever others prepare, assemble to that value if and only if the pieces left standing cover it |
| PreparedWrites.PublishedTakesEffect | tauri-plugin-ble-gatt/android/src/main/kotlin/dev/blegatt/BleGattBridge.kt:1269-1289 | after an execution each known staged characteristic holds the value its chunks assemble to, and every other keeps its own |
| PreparedWrites.PreparedWriteServer.ExecuteWrite | tauri-plugin-ble-gatt/android/src/main/kotlin/dev/blegatt/BleGattBridge.kt:1233-1289 | either each of the peer's known staged characteristics gets its assembled value and is published once, all under one session, every other keeping its value, or nothing changes but the error response |
| IrohLink.Link.Send | ble-gatt-iroh/src/lib.rs:1088-1097 | a full queue drops the packet and remembers when |
| IrohLink.Link.ForwardOne | ble-gatt-iroh/src/lib.rs:517-534 | a packet that finds the second queue full is dropped, a barrier waits |
| IrohLink.Link.TakeNext | ble-gatt-iroh/src/lib.rs:459-473 | a barrier taken by the send task reports reached |
| IrohLink.Link.LostSince | ble-gatt-iroh/src/lib.rs:917-926 | a drop is found since a time if and only if one is on record since then |
| IrohLink.BarrierGuarantee | ble-gatt-iroh/src/lib.rs:896-929 | when a barrier reports reached, every packet offered on the link before it has finished sending or was shed no later than the time in `dropped` |
| IrohLink.NoDropMeansSent | ble-gatt-iroh/src/lib.rs:917-929 | with no drop remembered since the close began, every packet offered since then and before the barrier was sent |
| IrohLink.OnlyFullQueuesShed | ble-gatt-iroh/src/lib.rs:1088-1097 | a packet is shed only when its queue, with the barriers waiting for it, holds sixty-four; anything else is queued behind the rest |
| IrohLink.BarriersAreNeverDropped | ble-gatt-iroh/src/lib.rs:515-534 | over every run no barrier is dropped: once nothing waits and both queues are empty, every barrier offered has been reached |
| IrohLink.PacketsLeaveInOrder | ble-gatt-iroh/src/lib.rs:459-534 | over every run packets are sent in the order offered, each once |
| IrohLink.ShortBurstsAreSent | ble-gatt-iroh/src/lib.rs:896-929 | over every run that offers at most sixty-four items nothing is shed, and all packets before a reached barrier were sent |

## Left out

- Delivery.OrderedDelivery: assumes fewer than 2^32 sends per channel, a receiver limit of at least the sender's, and that all fragments of one message arrive within the timeout, on a monotone clock.
- PeerLinkEvents.UpAndDownAlternate: assumes that a new dial's session is carried by no outstanding result of that peer, because the code does not ensure it; the exact condition is proved beside it.
- Discovery.DiscoveryIsTracked: assumes that the driver drops the debt only when what it can see allows it, because the property fails otherwise. SetDiscoveryFilter and StartDiscovery are one call; a definite error of it means that the client is not listed when BlueZ answers. The order of answers is free.
- GattQueue.OperationsAreAttributed: assumes that the platform accepts one operation at a time and completes in order, and that the caller issues serially on a connection. Nothing is assumed of the gap between the two halves of `closeConnection`: the guard that calls it keeps the address's pending slot until it has returned (`drivers/android.rs` 661-674 and 2325-2350), so no new connection, and hence no operation on one, can fall between them.
- IrohLink.BarrierGuarantee: covers one link; `close_sent` queues one barrier per link the connection used. The counting of the CONNECTION_CLOSE frame by the QUIC stack is not part of this model.
- RedialBound.DialsAreBounded: needs every backoff entry to be positive; with a zero entry there is no bound.
- Counters of 64 bits (link generations, server sessions, advertisement generations) are unbounded; the 32-bit message id, the 16-bit fragment fields and the 64-bit dial session wrap or truncate as in the source.
- Writes to other characteristics, MTU negotiation, notification sizing, the recv side of `OverflowSignal` and re-advertising after a radio recovery do not touch the serve loop's slot.
- `project` and the status events of the worker, its inbound server task and its wake-up time: no invariant depends on them.
- Tokio, D-Bus, JNI and Binder themselves: channels are sequences, mutexes are owners, and a cancelled call stays on the bus.
- Fairness and liveness: no step is promised to happen.
- Scanning, bonding, the mock driver, the Tauri commands and the power profiles: thin or test-only.
