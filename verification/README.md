# Truffle's benchmark engine and sidecar, modelled in Dafny

Truffle measures and carries traffic between the nodes of a tailnet. This project models the parts of it whose
correctness rests on an argument across several functions, and proves that argument for every input, every
interleaving or every reachable state.

**The responder of the benchmark engine.** A peer prepares, starts, finishes and cancels a remote run; a watchdog and
the hub's own stop may tear it down at any moment. `Slots` is the hub's data slot with its overlap counters,
`RemoteRuns` the table of runs with its tombstones and finish records, both as classes. `Responder` is the step machine
over them: one step per lock section or call into a workload, any number of handlers at once, and handlers that may
vanish between any two steps (an aborted task). `ResponderInvariant` and `ResponderSafety` hold the invariant, built
around the single owner of the data slot; `ResponderTheorems`, `ResponderAnswers`, `ResponderDuplicates`,
`ResponderRecords` and `ResponderPrepares` hold what follows.

**The data plane.** `Codec` is the wire headers; `FrameParser` the incremental parser, as a class refining a reference
that eats one byte at a time, and `FrameStream` its theorem over whole streams of frames. `Receiver` is the bucketed
accounting against a plain log, `ReceiverStats` what is computed from its snapshots, `Pacer` the virtual-schedule pacer
(GCRA, Annex A of ITU-T I.371) against a literal token bucket, `Clock` the offset estimate (section 8 of RFC 5905),
`Budget` the size guard of incoming JSON.

**The sidecar.** `BridgeCopy` is a bridged connection: two pumps over one activity clock, as a step machine, and the copy
loops as methods that take exactly a pump's steps. `PendingAdd`, `ProxyTable` and `ProxyLifecycle` follow the ownership
of a proxy's directory roots and listener; `EgressRoutes` and `EgressConns` the same for egress routes and the
connections on them; `UdpLeases` the UDP relays; `PeerWatch` the peer events. `Conns`, `Options` and `Words` are shared.

Three results are about what the code does not guarantee.

- `ResponderRecords.RunningRecordCanBePruned`: with two prepares of one key in flight, the second run's finish record can
  be stamped by the end of the first run's finish, and is then forgotten while its own finish still runs.
  `StampIsTheOnlyLeak` and `UnexpiredUnlessStamped` show this is the only way, in both directions, and
  `ResponderPrepares.SeparatePreparesKeepRecords` that it never happens while no two prepares of one key are between
  their check and their commit at once.
- `ResponderDuplicates.ForgottenRunIsDenied`: a duplicate finish is told there is no such run once the record of the first
  is gone. `RecordFate` says exactly when that is, and `DuplicatesGetTheFirstOutcome` that until then every answer is the
  first one's.
- `Clock.HugeDelayBreaksTheBound` and `Clock.FarClockBreaksTheBound`: the offset bound fails once a delay or an offset
  does not fit an `i64`. `OffsetBoundIff` and `BestOffsetBound` give the exact condition for a known true offset,
  `OffsetBoundKnown` and `BestOffsetKnown` the one that can be read off the exchanges.

Where the code and its comments differ the code is followed: a span check is said to bound the buckets of a peer's
stats, and does so exactly when they carry payload (`ReceiverStats.SpanBounds`, `ReceiverStats.NoPayloadNoBound`).

## Model

| member | source | states |
|---|---|---|
| Slots.Slots.Insert | benchmark/engine/src/control.rs:722-740 | a new token bumps every live token's overlap by one and starts with their number; it takes the slot only if it asked for it |
| Slots.Slots.AcquireData | benchmark/engine/src/control.rs:745-761 | granted exactly when the slot is empty; a refusal names the holder and changes nothing |
| Slots.Slots.AcquireExempt | benchmark/engine/src/control.rs:764-767 | always granted, never takes the slot |
| Slots.Slots.Drop | benchmark/engine/src/control.rs:784-818 | the token goes, and the slot with it only if this very token holds it |
| Slots.OverlapIsExact | benchmark/engine/src/control.rs:722-767 | after any history each live token's overlap counts exactly the other tokens whose lives intersected its own, and counting is mutual |
| Slots.MetIsMutual | benchmark/engine/src/control.rs:722-767 | two lives intersect in a history one way exactly when they do the other way |
| Slots.SlotIsTheLiveDataToken | benchmark/engine/src/control.rs:745-818 | after any history the slot's holder is exactly the live data token, so dropping an old token never frees a newer holder's slot |
| RemoteRuns.RemoteRuns.Tombstoned | benchmark/engine/src/control.rs:1191-1194 | prunes, then reports whether a live tombstone bars the key |
| RemoteRuns.RemoteRuns.KeyIsFree | benchmark/engine/src/control.rs:1650-1664 | prepare's first check: cancelled exactly under a live tombstone, accepted exactly when there is also no registered run and no live finish record of the key |
| RemoteRuns.RemoteRuns.Commit | benchmark/engine/src/control.rs:1727-1740 | inserts exactly when the session is not stopping and no live tombstone bars the key; runs and finished are not looked at again |
| RemoteRuns.RemoteRuns.TakeRun | benchmark/engine/src/control.rs:1206-1208 | removes and returns the run under the key, if any |
| RemoteRuns.RemoteRuns.ClaimFinish | benchmark/engine/src/control.rs:1835-1853 | the first finish takes the run and leaves a running record; later ones find that record; otherwise no run |
| ResponderSafety.StepKeepsInv | benchmark/engine/src/control.rs:1206-1274 | every step of prepare, start, finish, cancel, watchdog, stop or a vanishing handler keeps the invariant |
| ResponderSafety.RunKeepsInv | benchmark/engine/src/control.rs:1639-1962 | so does every run, from any state that has it |
| ResponderTheorems.AtMostOneRun | benchmark/engine/src/control.rs:1639-1760 | in every reachable state at most one remote run is registered, and it holds the hub's data slot |
| ResponderTheorems.CommitReplacesNothing | benchmark/engine/src/control.rs:1725-1748 | whenever a prepare commits, the run table is empty, though the commit does not check it |
| ResponderTheorems.WorkloadCalls | benchmark/engine/src/control.rs:1206-1237 | a prepared workload sees at most one start, then at most one of finish and cancel, and is in its cell exactly until then |
| ResponderTheorems.FinishFindsTheWorkload | benchmark/engine/src/control.rs:1894-1906 | the "already finished" branch of a finish is unreachable |
| ResponderTheorems.DrainedMeansConsumed | benchmark/engine/src/control.rs:1206-1274 | with no handler and no run left, every workload was consumed or went down with a vanished handler |
| ResponderTheorems.StopBarrier | benchmark/engine/src/hub.rs:1520-1548 | once a session is stopping, no later step of any run registers a run of it: what is registered was registered before |
| ResponderTheorems.StoppedSessionIsClear | benchmark/engine/src/hub.rs:1542-1548 | when a stop has gone through its list, no run of its session is registered |
| ResponderTheorems.OneFinishable | benchmark/engine/src/control.rs:1820-1906 | at most one run at a time is registered or in the hands of a finish |
| ResponderTheorems.FinishRunsOnce | benchmark/engine/src/control.rs:1820-1944 | however many finishes arrive for a key, between two registrations of it at most one workload's finish runs |
| ResponderTheorems.AnswersAgree | benchmark/engine/src/control.rs:1854-1944 | all answers to the finishes of one run agree, and the run's slot is free before any of them |
| ResponderAnswers.AnswersAreTheResult | benchmark/engine/src/control.rs:1854-1944 | every answer bears the id of the request it answers and no request is answered twice; it is "no run" exactly when the request found none, and otherwise what the finish of the run it found returned, a run of its key |
| ResponderAnswers.OneOutcomePerWindow | benchmark/engine/src/control.rs:1820-1892 | all finishes of a key that arrive with no registration of it in between and are answered with an outcome, first or duplicate, are about one run and carry one outcome; every answer bears its own id and is "no run" exactly when nothing was found |
| ResponderAnswers.RunKeepsAsks | benchmark/engine/src/control.rs:1820-1892 | every run keeps each finish handler tied to the request that made it |
| ResponderRecords.BarHolds | benchmark/engine/src/control.rs:1727-1740 | while a tombstone lives, no run is registered under its key, over any run of steps |
| ResponderRecords.CancelBarsPrepare | benchmark/engine/src/control.rs:1946-1962 | once a cancel has written its tombstone the key cannot be prepared for the tombstone's whole life |
| ResponderDuplicates.RecordFate | benchmark/engine/src/control.rs:1154-1194 | until its key is registered or stamped again, a finish record is found by a finish of its key if and only if it has not expired or, unstamped, its own finish has published or still runs; otherwise the answer is that there is no run |
| ResponderDuplicates.RecordLasts | benchmark/engine/src/control.rs:1154-1194 | over any run that ends in time, with any stamps and prepares in it, a record that lasts until then is found |
| ResponderDuplicates.DuplicatesGetTheFirstOutcome | benchmark/engine/src/control.rs:1154-1156 | while a record lasts, every finish of its key that arrives and is answered gets the first finish's outcome under its own id, never "no run", unless the first finish's handler vanishes before it has published |
| ResponderDuplicates.ForgottenRunIsDenied | benchmark/engine/src/control.rs:1856-1862 | a reachable state in which a duplicate, with no registration in between, was answered "no run" |
| ResponderRecords.StampIsTheOnlyLeak | benchmark/engine/src/control.rs:1885-1887 | a step leaves running records unexpired if and only if it is not a finish stamping a later run's record |
| ResponderRecords.UnexpiredUnlessStamped | benchmark/engine/src/control.rs:1820-1892 | over whole runs: running records are never expired if and only if no such stamp happens |
| ResponderRecords.RunningRecordCanBePruned | benchmark/engine/src/control.rs:1885-1887 | a reachable state in which a record is pruned while its finish still runs |
| ResponderPrepares.NoOverlapNoForeignStamp | benchmark/engine/src/control.rs:1639-1740 | while prepares of a key do not overlap between check and commit, no finish of it is stamped by another |
| ResponderPrepares.SeparatePreparesKeepRecords | benchmark/engine/src/control.rs:1639-1740 | if that holds of every key, no record of a running finish is ever expired |
| ResponderRecords.NoneVanishedNoneLost | benchmark/engine/src/control.rs:1222-1240 | if no handler vanishes, no workload is ever dropped unconsumed |
| ResponderRecords.EveryWorkloadConsumedOnce | benchmark/engine/src/control.rs:1206-1237 | a run in which no handler vanishes and all have ended consumed every prepared workload exactly once |
| Budget.WithinBudget | benchmark/engine/src/control.rs:1290-1327 | true exactly when the recursive cost is within the budget; never pushes more nodes than the budget pays for, however large the tree |
| Budget.PushEntries | benchmark/engine/src/control.rs:1312-1322 | an object's entries are charged and pushed one by one until the budget runs out |
| Clock.Fastest | benchmark/engine/src/clock.rs:137-141 | a sample of the list with the smallest delay |
| Clock.OffsetBoundIff | benchmark/engine/src/clock.rs:113-126 | the offset of any honest exchange is within its uncertainty of the truth exactly when the offset fits an i64 and the delay does too or the offset is exact |
| Clock.OffsetBoundKnown | benchmark/engine/src/clock.rs:113-131 | whatever the truth, an exchange keeps the bound exactly when its delay and offset fit an i64 |
| Clock.BestOffsetBound | benchmark/engine/src/clock.rs:134-148 | for any honest samples of one true offset, the best offset is within its uncertainty exactly when it fits an i64 and every usable delay does or the offset is exact; with every delay fitting, no usable sample has a smaller uncertainty |
| Clock.BestOffsetKnown | benchmark/engine/src/clock.rs:134-148 | whatever the truth, samples keep the bound exactly when the best offset fits and every usable delay does, or one usable sample went out and one came back without delay at the reported offset |
| Clock.PinsIsOnlyTruth | benchmark/engine/src/clock.rs:113-148 | the latter is exactly when the samples allow no truth but that offset |
| Clock.HugeDelayBreaksTheBound | benchmark/engine/src/clock.rs:113-118 | an exchange whose delay does not fit, outside its own bound |
| Clock.FarClockBreaksTheBound | benchmark/engine/src/clock.rs:120-126 | an exchange with a delay of 1 ns whose offset does not fit, outside its own bound |
| Codec.StreamRoundTrip | benchmark/engine/src/dataplane.rs:166-199 | what is encoded is decoded, whatever follows; only its own tag accepts it |
| Codec.StreamDecodes | benchmark/engine/src/dataplane.rs:142-199 | exactly the well-formed bytes decode, and to a header that encodes back to them but for the reserved byte |
| Codec.DatagramRoundTrip | benchmark/engine/src/dataplane.rs:213-256 | the datagram header round-trips, whatever follows |
| Codec.DatagramDecodes | benchmark/engine/src/dataplane.rs:232-256 | exactly the well-formed bytes decode, back to the bytes they were |
| Codec.FrameRoundTrip | benchmark/engine/src/dataplane.rs:274-297 | the frame header round-trips, whatever follows |
| FrameParser.FrameParser.Push | benchmark/engine/src/dataplane.rs:1005-1068 | for any chunk, events and payload count add up to what its bytes one by one would add; refused exactly when they would be |
| FrameParser.FrameParser.PushAll | benchmark/engine/src/dataplane.rs:1005-1068 | the loop of a push, against the sink each prefix of the chunk should lead to |
| FrameParser.FrameParser.TakePayload | benchmark/engine/src/dataplane.rs:1013-1027 | payload of the current frame, completing it when it is all there |
| FrameParser.FrameParser.TakePrefix | benchmark/engine/src/dataplane.rs:1028-1064 | prefix bytes, the last of which starts the frame or refuses its length |
| FrameParser.FeedAppend | benchmark/engine/src/dataplane.rs:1005-1068 | feeding is a fold: bytes then more bytes |
| FrameStream.FeedFrames | benchmark/engine/src/dataplane.rs:910-940 | any frames written, fed from a boundary, are seen whole, in order, stamped by their first byte, and leave the parser at a boundary |
| FrameStream.AnyChunking | benchmark/engine/src/dataplane.rs:976-1068 | the same for any chunking of the stream; payload counts sum to the payload sent |
| FrameStream.CutIsSeen | benchmark/engine/src/dataplane.rs:999-1002 | a stream cut anywhere is at a boundary exactly when the cut falls between frames |
| FrameStream.ReadFrames | benchmark/engine/src/workloads/video.rs:1089-1132 | the reader's loop over chunks: everything read exactly when the stream ends between frames, refused exactly when a frame is too long, and the events add up to the frames seen |
| FrameStream.WrittenIsRead | benchmark/engine/src/workloads/video.rs:1089-1132 | end to end: frames written, cut after any number of bytes and chunked in any way, are accepted exactly at the cuts between frames; uncut, every frame and all payload is seen |
| FrameStream.ChunksAreBytes | benchmark/engine/src/dataplane.rs:1005-1068 | chunking is irrelevant for any bytes at all |
| Receiver.ReceiverAccounting.Record | benchmark/engine/src/dataplane.rs:573-594 | epoch, last, total, buckets and streams keep agreeing with the log, whatever the order of times |
| Receiver.ReceiverAccounting.Snapshot | benchmark/engine/src/dataplane.rs:613-622 | the stats are honest: what the log says |
| ReceiverStats.HonestTotals | benchmark/engine/src/dataplane.rs:489-499 | honest stats pass the check that buckets, streams and total agree |
| ReceiverStats.HonestSpan | benchmark/engine/src/dataplane.rs:506-535 | honest stats pass the span check exactly when the data flowed no longer than the limit |
| ReceiverStats.SpanBounds | benchmark/engine/src/dataplane.rs:501-535 | any stats with payload that pass have no more buckets than the limit holds, none after the last byte |
| ReceiverStats.NoPayloadNoBound | benchmark/engine/src/dataplane.rs:513-515 | stats without payload pass with any number of empty buckets |
| ReceiverStats.BucketsAreWindows | benchmark/engine/src/dataplane.rs:329-330 | bucket i of honest stats holds exactly the bytes logged in its 250 ms |
| ReceiverStats.GoodputIsLogged | benchmark/engine/src/dataplane.rs:364-387 | goodput's bytes are exactly those logged at or after epoch + warmup; refused exactly when nothing came or the data flowed for less than warmup + 1 s |
| ReceiverStats.GoodputRate | benchmark/engine/src/dataplane.rs:380-386 | the rate times the window is the window's bits |
| ReceiverStats.BytesBetween | benchmark/engine/src/dataplane.rs:392-419 | the loop adds every bucket's share of the window |
| ReceiverStats.FullWindow | benchmark/engine/src/dataplane.rs:392-419 | from the first byte to the last it is the total exactly when time passed between them |
| ReceiverStats.WindowGrows | benchmark/engine/src/dataplane.rs:392-419 | never negative, and monotone in the window |
| ReceiverStats.WindowsAddUp | benchmark/engine/src/dataplane.rs:392-419 | adjacent windows add up, but for a final bucket of no length at the cut, which both count: exact if and only if it is empty |
| ReceiverStats.EdgeWindow | benchmark/engine/src/dataplane.rs:392-419 | up to a bucket's edge it is exactly the bytes logged before it, with the same exception |
| ReceiverStats.WindowNearLog | benchmark/engine/src/dataplane.rs:389-419 | any window is within the bytes of the two buckets its ends cut of the bytes logged in it |
| Pacer.PacerIsTokenBucket | benchmark/engine/src/dataplane.rs:641-657 | over any run of sends the pacer grants exactly what a token bucket of its depth grants that may hold 8 ms more |
| Pacer.BurstBound | benchmark/engine/src/dataplane.rs:730-740 | in any window of length d the grants hold at most rate * (d + tau + 8 ms) bytes before the last of them |
| Pacer.RefusedIffAhead | benchmark/engine/src/dataplane.rs:730-740 | from a fresh pacer that never lags past the cap, a refusal means exactly that more than rate * (now - first + tau) was booked |
| Pacer.RateLaw | benchmark/engine/src/dataplane.rs:703-705 | the rate in bytes per ns is the rate asked for, never below the floor |
| Pacer.TauLaw | benchmark/engine/src/dataplane.rs:703-707 | rate * tau + one datagram is the depth, and tau is within 0 and 2 ms |
| Pacer.WakeGrants | benchmark/engine/src/dataplane.rs:742-765 | at the tick after its time, or any later, a refused datagram may go |
| Pacer.Pacer.TryTake | benchmark/engine/src/dataplane.rs:730-740 | one step of the schedule with the datagram priced at the rate; a refusal returns the earliest time |
| Pacer.Pacer.Wait | benchmark/engine/src/dataplane.rs:743-765 | when no sleep is early it sleeps once if the first look refuses and not at all otherwise, and books one granted step |
| Pacer.Pacer.SetRate | benchmark/engine/src/dataplane.rs:703-707 | the schedule carries on at the new rate |
| Pacer.Pacer.RestartAt | benchmark/engine/src/dataplane.rs:712-715 | the schedule starts over at the given time and rate, whatever it was |
| Pacer.RestartedIsFullBucket | benchmark/engine/src/dataplane.rs:709-715 | a restarted pacer grants, over any run of sends, exactly what the bucket full at that time grants |
| BridgeCopy.RunKeepsInv | packages/sidecar-slim/main.go:3363-3563 | order of bytes, deadlines, the shared clock and the closing rule hold over every interleaving of two pumps and the clock |
| BridgeCopy.ReapedIffIdle | packages/sidecar-slim/main.go:3504-3563 | a pump ends idle exactly at a check after an expired deadline with nothing moved in either direction for the timeout; a stale deadline only re-arms |
| BridgeCopy.DirectionsAlike | packages/sidecar-slim/main.go:3397-3405 | swapping the two directions maps runs to runs, so every result about one pump is about both |
| BridgeCopy.WrittenIsPrefix | packages/sidecar-slim/main.go:3509-3563 | in every run the bytes written are a prefix of the bytes read, all of them after a clean end; closed only by an idle reap or when both ended |
| BridgeCopy.ReapOnTime | packages/sidecar-slim/main.go:3432-3437 | if nothing moves and timers fire when set for, a blocked copy ends idle after at most two expiries, at last activity + timeout |
| BridgeCopy.ArmedDeadline.Arm | packages/sidecar-slim/main.go:3491-3497 | armed after it, within the slack of the wanted deadline |
| BridgeCopy.ArmedDeadline.Forget | packages/sidecar-slim/main.go:3501-3501 | the next arm sets the deadline for sure |
| BridgeCopy.WriteActive | packages/sidecar-slim/main.go:3546-3563 | the write loop takes exactly the pump's steps, for all outcomes of its calls |
| BridgeCopy.Copy | packages/sidecar-slim/main.go:3509-3540 | so does the read loop around it |
| BridgeCopy.IdleCopy | packages/sidecar-slim/main.go:3509-3540 | the copy writes a prefix of what it read, all of it at a clean end, and returns idle exactly when the pump does |
| PendingAdd.Resources.Close | packages/sidecar-slim/main.go:590-599 | however often it is called, every root is closed once |
| PendingAdd.PendingProxyAdd.SetListener | packages/sidecar-slim/main.go:617-627 | kept, or closed at once when the add has given up its handles |
| PendingAdd.PendingProxyAdd.Transfer | packages/sidecar-slim/main.go:641-653 | the handles pass on, open, at most once |
| PendingAdd.PendingProxyAdd.Abort | packages/sidecar-slim/main.go:655-677 | what is still owned is closed once; nothing after a transfer or an earlier abort |
| ProxyTable.Proxies.Place | packages/sidecar-slim/main.go:2956-2975 | takes the id exactly when it is free and the port unused |
| ProxyTable.Proxies.RemovePlaceholder | packages/sidecar-slim/main.go:2885-2894 | removes this add's placeholder and nothing else |
| ProxyTable.Proxies.Install | packages/sidecar-slim/main.go:2900-2913 | goes live exactly when the lifecycle is alive, the id is this add's placeholder and the handles transfer |
| ProxyTable.Proxies.Remove | packages/sidecar-slim/main.go:3207-3214 | takes out a live entry, never a placeholder |
| ProxyTable.Proxies.Snapshot | packages/sidecar-slim/main.go:1479-1494 | all live entries and all pending adds, leaving both tables empty |
| ProxyTable.UnplacedSparesOthers | packages/sidecar-slim/main.go:2882-2894 | an aborting add leaves every live entry and every other placeholder in place |
| ProxyLifecycle.RunKeepsInv | packages/sidecar-slim/main.go:2918-3130 | the ownership invariant holds over every interleaving of adds, removes, starts and stops |
| ProxyLifecycle.OneOwner | packages/sidecar-slim/main.go:577-765 | in every reachable state an add's roots are open with exactly one closing owner, or closed once with none; its listener has the same owner, who closes it once, and an installed one is closed once more by its server |
| ProxyLifecycle.PlaceholdersArePending | packages/sidecar-slim/main.go:2969-2974 | the ids mapped to nil are exactly the pending ids, each its own add's |
| ProxyLifecycle.CleanupSparesOthers | packages/sidecar-slim/main.go:2882-2894 | in every reachable state an add's cleanup removes its own placeholder and nothing else |
| ProxyLifecycle.NoInstallAfterStop | packages/sidecar-slim/main.go:2896-2913 | after a stop's snapshot no proxy of a lifecycle cancelled by then is ever live again |
| ProxyLifecycle.NothingLeaks | packages/sidecar-slim/main.go:3056-3130 | when nothing is in flight the open roots are exactly those of the table's entries, and the open listeners exactly those of entries that still serve; no placeholder is left |
| EgressRoutes.NoRouteAfterStop | packages/sidecar-slim/egress.go:520-532 | once a stop has emptied the table no route of a lifecycle cancelled by then goes live again |
| EgressRoutes.CleanupSparesOthers | packages/sidecar-slim/egress.go:534-542 | a failed add's cleanup removes its own placeholder and nothing else |
| EgressRoutes.NothingLeaks | packages/sidecar-slim/egress.go:479-518 | a route's listener is closed at most once; at rest the open ones are exactly those of the table's routes |
| EgressRoutes.RunKeepsInv | packages/sidecar-slim/egress.go:427-542 | the ownership invariant holds over every interleaving of adds, removes, starts and stops |
| EgressConns.Tracker.Track | packages/sidecar-slim/egress.go:380-392 | kept, or closed at once after a shutdown |
| EgressConns.Tracker.Untrack | packages/sidecar-slim/egress.go:394-398 | forgets this connection only |
| EgressConns.Tracker.Shutdown | packages/sidecar-slim/egress.go:402-422 | closes everything tracked and keeps nothing |
| EgressConns.ShutdownClosesAll | packages/sidecar-slim/egress.go:580-610 | when a shutdown of a route or of the CONNECT proxy has run to its end, whatever raced with it, only connections never yet offered to the tracker are open, and offering closes them |
| EgressConns.ClosedForGood | packages/sidecar-slim/egress.go:671-709 | after a shutdown begins nothing is tracked again |
| EgressConns.EndedLeavesNothing | packages/sidecar-slim/egress.go:758-797 | a served client, of a route or of the CONNECT proxy, leaves neither connection open |
| UdpLeases.Relay.Close | packages/sidecar-slim/udp_relay.go:37-51 | closes whatever is attached; idempotent |
| UdpLeases.Relay.Attach | packages/sidecar-slim/udp_relay.go:52-64 | kept, or both sockets closed at once after a close |
| UdpLeases.ExitSparesOthers | packages/sidecar-slim/udp_relay.go:103-109 | a lease that ends releases its own reservation, never one that took the id since |
| UdpLeases.UnlistenCloses | packages/sidecar-slim/udp_relay.go:255-263 | a lease unlistened and closed has closed sockets ever after, or just-bound ones that its attach closes |
| UdpLeases.ClosedForGood | packages/sidecar-slim/udp_relay.go:37-64 | a closed lease stays closed, over any run |
| UdpLeases.NothingLeaks | packages/sidecar-slim/udp_relay.go:87-156 | at rest the leases with open sockets are exactly those relaying, and exactly those reserved |
| PeerWatch.Watcher.Diff | packages/sidecar-slim/main.go:1962-2005 | whatever a consumer that agreed with the last snapshot holds, the events make it agree with this one; one event per peer that joined, left or changed, so none exactly when nothing differs; the first fetch is silent and a failed one changes nothing |
| PeerWatch.Watch | packages/sidecar-slim/main.go:1953-2005 | for any sequence of snapshots and failures a consumer starting from the first snapshot ends in agreement with the latest |
| PeerWatch.AddressesCanGoStale | packages/sidecar-slim/main.go:2219-2250 | a field that is not compared can differ without an event |

## Left out

- Fixed-width counters: sums of bytes, token numbers and overlap counts are unbounded here; only `Clock` models the `i64` casts.
- Floating point: rates, shares and pacer times are `real`, so rounding is not modelled; `ClockMap` is not modelled.
- ResponderLimits: the bounds on concurrent requests are a counter and a map with one easy invariant.
- Hub.stop: the teardowns it awaits one after another are modelled as concurrent children, which allows more interleavings than the code has.
- Watchdog timing: the watchdog is a cancel that may come at any time; when it is armed and disarmed is not modelled.
- Duplicate finishes: a waiting duplicate may give up at any time, which covers its time limit and the silence of a re-sent copy; the model also lets such a copy wait.
- Workloads: what prepare, start, finish and cancel of a workload do is opaque; only that they are called, and what finish returns, is modelled.
- BridgeCopy: recording activity is one step with the I/O that moved the bytes, as the code's own argument assumes; half-closing is not modelled, and the buffer pool only as the two buffer sizes.
- Proxy cancel functions and WebSocket connections: no handle of the model depends on them. HTTP serving is modelled only in that the server closes its listener once, when serving ends or is shut down. The check against dynamic listeners has an arbitrary outcome, and port uniqueness is not claimed.
- ProxyLifecycle: several roots of one proxy are one handle there; `PendingAdd.Resources` closes them one by one. A failing bind, which closes what it opened, is not a step.
- Egress admission, dialing and the CONNECT proxy's start: their outcomes are arbitrary. A client of the CONNECT proxy belongs to its HTTP server until it is taken over, and is not modelled before that.
- UDP relay datagrams: authentication and forwarding of datagrams are not modelled, only the life of the sockets.
- PeerWatch: building a snapshot from a status, and the notify bus and timers that trigger a round.
- Everything that only carries these parts: JSON messages, command-line tools, reports, the Swift and web front ends, the node itself.
