# EVM connector: canonical chain, confirmations and event scan positions

The FireFly EVM connector follows a chain through nodes that can change their mind, disagree with each other, or
lag behind. This project models the parts of it that make this safe, and proves that they do:

- the block listener's in-memory view of the head of the canonical chain (`CanonicalChain.dfy`), what a batch of new
  blocks notifies of (`BlockFilterPoller.dfy`), the confirmation list that is built from the view
  (`ConfirmationReconciler.dfy`), and the two together (`HeadAndConfirmations.dfy`);
- the matching of logs to many listeners through an index (`AggregatedListener.dfy`);
- the client-side steady state of an event stream: its poll state (`GetLogsPolling.dfy`), one cycle of its loop
  (`SteadyState.dfy`), and whole runs of it in light mode (`LightMode.dfy`) and full mode (`FullMode.dfy` for the
  window behind the head, `FullDelivery.dfy` for what has become final, `FullProgress.dfy` for how far they get);
- the scan positions: one listener (`EventListener.dfy`), the catchup loops and the page size (`EventStream.dfy`), the
  handover between catchup and the steady state (`Handover.dfy`), all loops interleaved (`ScanProtocol.dfy`), that
  the loops are what this protocol says they are (`ScanSimulation.dfy`), and so miss nothing (`NoHoles.dfy`);
- the receipt cache (`ReceiptCache.dfy`).

`Blocks.dfy` has what they share. A block is its number, hash and parent hash. Where agreement with a chain is
claimed, a hash commits to its block: a function gives the block back from the hash (`Genuine`), and in `LightMode` a
hash fixes the number and the logs of its block.

The node is an oracle. `Script` gives its answer to the t-th query, when that query is for block n: a block of that
number, nothing, or an error that is not retried. Block numbers end at the largest int64, as larger ones make the
program panic. `Serves` is a node that serves one chain for good. In the event loops the node's answer, the head, the
snapshot of the canonical chain and the page size are inputs of each cycle.

Objects that the program updates in place are classes with the same fields. Their methods keep the program's loops,
and are proved to compute the functions declared beside them. The theorems are about those functions, and about
sequences of steps. The linked list of blocks is a `seq` that the methods reassign, and a position in it an index.

Concurrency is modelled in steps. In `ScanProtocol` a loop iteration is many steps: it begins its query, receives the
answer, marks each event as detected, pushes it, moves the mark of each listener, and finishes. Any other steps can
come in between, so that a loop can also stop for good at any point. What an iteration read before its query can be
out of date: the head is any head seen before (in light mode, where the head can fall, any at all), the lowest mark is
at or below the marks by now, and the listeners of the group are those of the version it was built for. A listener that
is added again after it was removed is a new listener there. In `ReceiptCache` each read of a fetch is a step.

Every lemma switches automatic induction off, so that each proof by induction is the one written down.

Where comments of the source, or what it sets out to do, and its code differ, the model follows the code:

- `checkAndSetHighestBlock` is commented as storing the first full block at the known height; the code stores every
  block of that height, so that the last one stays (`NoteHead`).
- the rebuild of the canonical chain does not trim to the monitored length, as its own comment says; `RebuildOnChain`
  states the resulting length, which can exceed the window.
- a list given to `buildConfirmationList` that is long enough reports neither `NewFork` nor `Rebuilt`, because the
  result is a new one; `BuildWellBuilt` states when `Rebuilt` is set.
- the steady state and the lead group's catchup are commented as never disagreeing about whether the group is too far
  behind (`event_stream_getlogs.go:265-267`). In full mode they can: a re-org that reaches below the lowest mark rewinds
  the poll position behind it, the steady state measures from that position, and catchup from the mark
  (`FullModeCanBounce`, on snapshots that the block listener builds). `BouncesExactly` and `StaysAheadExactly` say
  exactly when. In light mode they never disagree.
- the re-org check of the steady state drops a record that is behind the snapshot without looking at it
  (`event_stream_getlogs.go:101-106`). So no final block is lost while each snapshot goes on from what was final in the
  cycle before (`FullModeLosesNothing`), and one can be when it does not (`GapLosesBlock`). A list of the monitored
  length begins one past the stable head, and goes on from there if and only if what is stable now was final a cycle
  earlier (`TrimmedListOverlaps`).
- a batch of new blocks dispatches from one list element. If a later block of the batch removes that element, the
  added blocks that are still in the list are missed (`BatchDispatchesExactly` says when, `ShortBatchCanMiss` has an
  input).
- with a target of zero the outcome of `buildConfirmationList` does depend on the list given
  (`TargetZeroOutcome`, and an input in `HistoryMattersForTargetZero`). Its caller answers a target of zero before it
  gets there, so the history theorems are about targets from one on.
- a transaction in the head block is refused with "block not available", although its block is known
  (`ConfirmationsFollowTheHead`).

## Model

| member | source | states |
|---|---|---|
| Blocks.MatchValidatesPrefix | pkg/ethrpc/ethrpc.go:213-221 | one block whose hash matches the chain vouches for every block linked behind it |
| CanonicalChain.BlockListener.CheckAndSetHighestBlock | pkg/ethblocklistener/blocklistener.go:720-734 | the head height only rises; a block of the known height replaces the head block, lower ones are ignored |
| CanonicalChain.ReconcileFollowsHead | pkg/ethblocklistener/blocklistener.go:714-734 | on any answers the height after a reconcile is the highest of the old one, the block advertised and the tail of the list; the block held for the head is the advertised one, or the tail, if it is of that height, and the one held before only if neither the height rose nor the advertised block is of it |
| CanonicalChain.ReconcileReachesHead | pkg/ethblocklistener/blocklistener.go:383-531 | on an unchanging chain whose head the height is not past, reconciling the head leaves exactly its height, holds it for the head, and ends the list at it |
| CanonicalChain.BlockListener.TrimToLastValidBlock | pkg/ethblocklistener/blocklistener.go:534-576 | cuts the list behind the last block that matches the node's answer, and leaves it alone when there is none or the query is cancelled |
| CanonicalChain.LastValidExactly | pkg/ethblocklistener/blocklistener.go:534-576 | on any answers, what is kept ends at the last block that the node still serves, and is nothing if there is none or a query fails before it is found; one query for each block looked at |
| CanonicalChain.BlockListener.RebuildCanonicalChain | pkg/ethblocklistener/blocklistener.go:471-531 | the whole new state, reported position and number of queries, for any node answers; terminates |
| CanonicalChain.RebuildExactly | pkg/ethblocklistener/blocklistener.go:471-531 | on any answers, what the node serves one after the other behind the kept blocks is appended, up to the first it does not have or that does not link; it reports the first of these, or nothing if an error cancels |
| CanonicalChain.BlockListener.HandleNewBlock | pkg/ethblocklistener/blocklistener.go:418-464 | rebuilds when the block does not link, else inserts it, drops what follows and trims the front |
| CanonicalChain.BlockListener.ReconcileCanonicalChain | pkg/ethblocklistener/blocklistener.go:383-412 | the whole new state and the reported position, for any node answers |
| CanonicalChain.ReconcileKeepsInv | pkg/ethblocklistener/blocklistener.go:383-531 | reconciling any block, on any answers, keeps the list hash-linked with consecutive numbers and the head height at or above all of it |
| CanonicalChain.RunKeepsInv | pkg/ethblocklistener/blocklistener.go:383-531 | the same over any run, with the head height never falling and at or above every block advertised |
| CanonicalChain.LastValidOnChain | pkg/ethblocklistener/blocklistener.go:534-576 | on an unchanging chain, exactly the blocks kept belong to the chain |
| CanonicalChain.RebuildOnChain | pkg/ethblocklistener/blocklistener.go:471-576 | on an unchanging chain, a rebuild of any linked list leaves exactly the chain from the old front number to the head |
| CanonicalChain.ReconcileConverges | pkg/ethblocklistener/blocklistener.go:383-464 | after reconciling the head of an unchanging chain the list is a segment of it ending at the head, if and only if the head was not already in the list below a longer tail; in that case the list is unchanged |
| CanonicalChain.StaleTailExactly | pkg/ethblocklistener/blocklistener.go:398-400 | the exception to converging is a list that holds the node's chain from its front to the head, and more behind it |
| CanonicalChain.StaleTailStays | pkg/ethblocklistener/blocklistener.go:398-400 | a linked, genuine list of that kind, which reconciling the head leaves as it is |
| CanonicalChain.ReconcileNotifies | pkg/ethblocklistener/blocklistener.go:383-531 | unless cancelled, no added block is in front of the reported position, and none was added if there is no position |
| CanonicalChain.ReconcileNotifiesExactly | pkg/ethblocklistener/blocklistener.go:383-531 | on an unchanging chain, the blocks from the reported position on are exactly the added ones |
| CanonicalChain.LatestBlockPoller.Poll | pkg/ethblocklistener/blocklistener_pollers.go:196-213 | a poll without a block changes nothing; otherwise it reconciles that one block, and dispatches the hashes from the reported position on with the gap flag |
| CanonicalChain.PollDispatchesAdded | pkg/ethblocklistener/blocklistener_pollers.go:88-106 | a poll that is not cancelled dispatches the hash of every added block, at its place in list order, with the gap flag as it was |
| CanonicalChain.GapUntilFirstBlock | pkg/ethblocklistener/blocklistener_pollers.go:80-106 | over any run of polls, an update says that blocks may have been missed if and only if no poll before it had a block |
| BlockFilterPoller.TrackedIsThere | pkg/ethblocklistener/blocklistener.go:430-454 | an element of the list that a reconcile does not remove is where the model tracks it, with its block |
| BlockFilterPoller.RemovedExactly | pkg/ethblocklistener/blocklistener.go:430-454 | a list element that a reconcile does not replace is removed if and only if the block is added at its number plus the monitored length or above, or a rebuild cuts the list in front of it and finds nothing to put there |
| BlockFilterPoller.BatchDispatchesAdded | pkg/ethblocklistener/blocklistener_pollers.go:88-106 | a batch of any blocks dispatches the hash of every block it added that is still in the list, in list order, if the element it dispatches from is still in the list; if not, the blocks missed are all above it |
| BlockFilterPoller.BatchDispatchesExactly | pkg/ethblocklistener/blocklistener_pollers.go:88-106 | a batch of any blocks dispatches every block it added that is still in the list if and only if there is none, or none of its blocks removes the element held in the end; when one does is read from the block, the list and the answers in front of it |
| BlockFilterPoller.ShortBatchCanMiss | pkg/ethblocklistener/blocklistener.go:452-454 | a batch no longer than the monitored length that dispatches neither of the two blocks it added |
| BlockFilterPoller.AppendedBatchExactly | pkg/ethblocklistener/blocklistener.go:451-454 | a batch that only extends the list dispatches from its first block if and only if it is no longer than the monitored length |
| CanonicalChain.KeptGenerationMeansAppendOnly | pkg/ethblocklistener/blocklistener.go:430-475 | whenever the list changes other than by one block at the tail and aging at the front, the receipt cache is reset |
| CanonicalChain.ResetsExactly | pkg/ethblocklistener/blocklistener.go:430-475 | the receipt cache is reset exactly when the block is not in the list and does not go on from its tail |
| CanonicalChain.BlockListener.SeedMonitoredHead | pkg/ethblocklistener/blocklistener.go:223-251 | keeps the chain invariant on any answers; on an unchanging chain fills exactly the monitored window up to the head |
| CanonicalChain.BlockListener.AcceptHeadBlockNumber | pkg/ethblocklistener/blocklistener.go:686-707 | ignores a reading behind by at most the monitored length, accepts any other, and says whether the head changed |
| CanonicalChain.HeadIsHighestReading | pkg/ethblocklistener/blocklistener.go:679-707 | over any readings whose drift is tolerated, the tracked head is the highest one so far |
| CanonicalChain.HeadIsHighestSinceReset | pkg/ethblocklistener/blocklistener.go:679-707 | over any readings, it is the highest since the latest one that was further behind than the monitored length, counting that one |
| ConfirmationReconciler.Splice.NewSplice | pkg/ethblocklistener/confirmation_reconciler.go:200-231 | drops the overlap from the early list, and detects whether the two lists differ in it |
| ConfirmationReconciler.Splice.FillOneGap | pkg/ethblocklistener/confirmation_reconciler.go:244-264 | prepends the fetched block if it is the parent, else fails and leaves the list; a missing block is its own failure |
| ConfirmationReconciler.CreatePreSpliceEarlyList | pkg/ethblocklistener/confirmation_reconciler.go:283-309 | the linked prefix of the list given, or the transaction block alone, with the flags |
| ConfirmationReconciler.EarlyListExactly | pkg/ethblocklistener/confirmation_reconciler.go:283-309 | of a list for the transaction block, the longest part from its start that is linked, with the flag that this is not all of it; of any other list nothing, with the fork flag |
| ConfirmationReconciler.HandleTargetCountMetWithEarlyList | pkg/ethblocklistener/confirmation_reconciler.go:387-410 | answers with target + 1 blocks exactly when the last one connects to memory |
| ConfirmationReconciler.ConnectsExactly | pkg/ethblocklistener/confirmation_reconciler.go:387-410 | a block connects to a linked list in memory exactly when its child is there |
| ConfirmationReconciler.BuildQueueUsingInMemoryChain | pkg/ethblocklistener/confirmation_reconciler.go:334-385 | the in-memory blocks behind the transaction up to the target, or a failure when memory has not caught up |
| ConfirmationReconciler.BuildConfirmationList | pkg/ethblocklistener/confirmation_reconciler.go:126-192 | result and number of queries for any lists and any node answers; the nested loops terminate and stay in bounds |
| ConfirmationReconciler.BuildWellBuilt | pkg/ethblocklistener/confirmation_reconciler.go:126-192 | on any answers a list that is built is linked, starts at the transaction block, has at most target + 1 blocks and is confirmed exactly at target + 1; when it is rebuilt; a sufficient list given needs no query |
| ConfirmationReconciler.JoinFailsExactly | pkg/ethblocklistener/confirmation_reconciler.go:159-192 | on any answers the join asks for the blocks in front of the late list one after the other, and which failure it ends with is decided by the answer to the last query |
| ConfirmationReconciler.BuildRefusesExactly | pkg/ethblocklistener/confirmation_reconciler.go:311-348 | on any answers, it is refused as not caught up exactly when memory does not reach the transaction, and as not available exactly when memory holds no block asked for and the node does not have the target block |
| ConfirmationReconciler.BuildOnChain | pkg/ethblocklistener/confirmation_reconciler.go:126-330 | on an unchanging chain the outcome is a reference that does not look at the list given, and NewFork is set if and only if that list is of another transaction block, or a block of it, up to which it is linked and which lies within the returned list, is not that of the chain |
| ConfirmationReconciler.HistoryIndependence | pkg/ethblocklistener/confirmation_reconciler.go:126-192 | the confirmations, or the failure, are those of starting with no list, however stale, forked or gapped the list given |
| HeadAndConfirmations.ConfirmationsFollowTheHead | pkg/ethblocklistener/confirmation_reconciler.go:126-192 | after the head is reconciled, an earlier transaction gets exactly the chain from its block to the target or the head, and is confirmed if and only if the head is at least the target away |
| AggregatedListener.BuildAggregatedListener | internal/ethereum/event_stream.go:608-634 | each bucket holds the listeners interested in a topic, once and in order; the signature set is exactly the topics with a bucket, once each |
| AggregatedListener.FilterEnrich | internal/ethereum/event_stream.go:640-656 | what the loops over logs, bucket and filters emit, or none as soon as details cannot be fetched |
| AggregatedListener.FilterFailsExactly | internal/ethereum/event_listener.go:257-283 | it is none if and only if there is a log and a listener not past it such that details cannot be fetched for the first filter of the listener that matches the log |
| AggregatedListener.IndexRefinesBruteForce | internal/ethereum/event_stream.go:608-659 | unless enrichment fails, matching through the index emits exactly what matching every listener with every log emits |
| AggregatedListener.ExactlyOnce | internal/ethereum/event_stream.go:640-659 | one update per listener and log at or above its mark with a matching filter, and none for any other |
| AggregatedListener.QueryExcludesNone | internal/ethereum/event_stream.go:661-680 | the topic and address filter sent to the node excludes no log in range that a listener wants |
| AggregatedListener.QueryIsNarrow | internal/ethereum/event_stream.go:661-680 | what passes that filter has the signature of some listener, and with one listener that has one filter it is matched by that filter |
| AggregatedListener.RangeEventsExact | internal/ethereum/event_stream.go:661-688 | the query and the index together emit exactly the reference on all logs of the range |
| GetLogsPolling.GetLogsPollState.Reset | internal/ethereum/event_stream_getlogs.go:39-43 | the position is set, and all records are discarded |
| GetLogsPolling.GetLogsPollState.FilterDelivered | internal/ethereum/event_stream_getlogs.go:50-61 | exactly the logs of blocks without a record, in order |
| GetLogsPolling.UndeliveredInOrder | internal/ethereum/event_stream_getlogs.go:50-61 | each log stays or goes by its own block, and the order stays |
| GetLogsPolling.GetLogsPollState.AdvanceRescan | internal/ethereum/event_stream_getlogs.go:74-87 | records the blocks delivered, moves the base and drops the records behind it |
| LightMode.RescanRecordsExactly | internal/ethereum/event_stream_getlogs.go:74-87 | the records after a page are those before it and the blocks of the page, except what is behind the base |
| GetLogsPolling.GetLogsPollState.CheckReorgRewind | internal/ethereum/event_stream_getlogs.go:95-121 | prunes aged records, and rewinds to the first record that the snapshot replaces |
| GetLogsPolling.GetLogsPollState.Advance | internal/ethereum/event_stream_getlogs.go:130-137 | appends the snapshot's blocks of the page, and moves behind it |
| SteadyState.LeadGroup.PollCycle | internal/ethereum/event_stream_getlogs.go:228-366 | position, marks, head position, events pushed and outcome of one cycle, in both modes |
| SteadyState.PageReaches | internal/ethereum/event_stream_getlogs.go:287-296 | a page reaches as far as its size, the head, and in full mode the higher of stable head and snapshot allow, and no further |
| SteadyState.CycleMoves | internal/ethereum/event_stream_getlogs.go:298-355 | when a cycle polls; a page takes each mark of the group, and its position, right behind the page or to the stable head, whichever is lower, and the poll position right behind the page in full mode; without a page nothing moves but by a rewind |
| SteadyState.RunDetects | internal/ethereum/event_stream.go:554-594 | over any run, in both modes, the detected checkpoint of each listener ends at the highest of its own events that the run pushed and of where it was |
| SteadyState.LeadGroup.ResetPoll | internal/ethereum/event_stream_getlogs.go:246-256 | the position becomes the lowest mark of the group, and all records are discarded |
| SteadyState.LowestMarkIsLowest | internal/ethereum/event_stream_getlogs.go:249-254 | what that loop finds is a mark of the group, and no mark of the group is below it |
| LightMode.NothingLostNothingTwice | internal/ethereum/event_stream_getlogs.go:45-87 | over any run from a reset, with nodes at different heights that truncate silently, each listener was sent every log it wants of every final block up to the committed base, and no block hash, transaction index and log index twice |
| LightMode.PageDelivers | internal/ethereum/event_stream_getlogs.go:298-350 | every block a page covers has been delivered, now or on an earlier sweep |
| LightMode.SweepProgress | internal/ethereum/event_stream_getlogs.go:63-74 | after any reductions of the page size, a page that succeeds moves the base, or the base is at the stable head and the page reaches the head |
| LightMode.SweepReachesStable | internal/ethereum/event_stream_getlogs.go:287-350 | at a head that stays the base reaches the stable head within as many pages as it is behind |
| FullMode.RewindCovers | internal/ethereum/event_stream_getlogs.go:95-121 | after the re-org check every polled block number above the stable head has a record, and a record of a block in the snapshot has the canonical hash |
| FullMode.CanonicalWindowDelivered | internal/ethereum/event_stream_getlogs.go:217-354 | in every cycle of a run, each block of the snapshot above the stable head and behind the position has a record with its canonical hash, and its logs were sent to every listener not past it; also when the head rises between reading it and taking the snapshot |
| FullMode.MonitoredListIsGood | pkg/ethblocklistener/blocklistener.go:736-746 | the block listener's list, once it fills the window, is a snapshot as the re-org check needs it, also while it lags behind the head |
| FullProgress.RewindSettles | internal/ethereum/event_stream_getlogs.go:95-121 | the re-org check leaves nothing to rewind for: done again with the same snapshot it stays where it is |
| FullProgress.SweepMoves | internal/ethereum/event_stream_getlogs.go:287-354 | at a head that stays, with answered queries, the position moves by exactly the sizes of the pages up to the ceiling of the scan, and each mark with it up to the stable head |
| FullProgress.SweepReachesStable | internal/ethereum/event_stream_getlogs.go:287-354 | so within as many pages as it is behind, the position is right behind the ceiling, which is the head if the snapshot gets there, and every mark is at or past the stable head |
| FullDelivery.FullModeLosesNothing | internal/ethereum/event_stream_getlogs.go:217-354 | over any run from a reset, if each snapshot goes on from what was final in the cycle before, each listener was sent every log it wants of every final block behind the position, whatever versions of it were polled before |
| FullDelivery.RewindsExactly | internal/ethereum/event_stream_getlogs.go:95-121 | the position is rewound if and only if a record not behind the snapshot is replaced, and no record behind the snapshot is kept |
| FullDelivery.TrimmedListOverlaps | pkg/ethblocklistener/blocklistener.go:451-454 | the block listener's list at the monitored length goes on from what was final before if and only if what is stable now was final then |
| FullDelivery.GapLosesBlock | internal/ethereum/event_stream_getlogs.go:99-106 | two cycles after which the position is past a final block whose wanted log was never sent, as its record was dropped without a look |
| EventListener.StreamListener.MarkDetected | internal/ethereum/event_listener.go:155-163 | the detected checkpoint ends at or above the event, and never falls |
| EventListener.CheckpointsAreOrdered | internal/ethereum/event_listener.go:72-78 | checkpoints are in a total order by block, transaction and log |
| EventListener.MarkAllIsHighest | internal/ethereum/event_listener.go:155-163 | in whatever order events are detected, the checkpoint ends at the highest of them and of where it was |
| EventListener.StreamListener.GetHWM | internal/ethereum/event_listener.go:138-152 | the scan position is in front of every event of its block, and behind every event of earlier blocks |
| EventStream.Connector.NewConnector | internal/ethereum/ethereum.go:148-161 | refuses page sizes that are too small, and raises the threshold to the page size |
| EventStream.ConfigureExactly | internal/ethereum/ethereum.go:148-161 | refused exactly when the page size is below one, or in light mode below the gap plus one; a threshold at or above the page size is kept |
| EventStream.Connector.DownscaleCatchupPageSize | internal/ethereum/ethereum.go:256-275 | halves the page size, down to one, in light mode down to the gap plus one |
| EventStream.DownscaleReduces | internal/ethereum/ethereum.go:256-275 | above the floor a reduction makes the page smaller, half of it or the floor; at the floor it stays |
| EventStream.DownscaleReachesFloor | internal/ethereum/ethereum.go:256-275 | after n reductions it is the configured size divided by two to the n, but not below the floor, which it reaches |
| EventStream.PageSizeNeverTooSmall | internal/ethereum/ethereum.go:252-275 | however often it is reduced, a page stays positive, and in light mode covers the unstable window |
| EventStream.LeadGroupCatchup | internal/ethereum/event_stream.go:255-337 | marks, events pushed and outcome of the loop, for any heads, page sizes and failures |
| EventStream.CatchupPageExactly | internal/ethereum/event_stream.go:292-325 | which of its inputs decide what becomes of an iteration, and that nothing but a page moves a mark or pushes |
| EventStream.CatchupCovers | internal/ethereum/event_stream.go:284-329 | on any of those it polls every block from the lowest mark to the one it ends at, in pages that are full or end at the stable head, and takes each listener exactly to that mark (what was pushed: `CatchupMissesNone`) |
| EventStream.CatchupEnds | internal/ethereum/event_stream.go:292-325 | at a head that stays it ends within as many pages as it is behind, less than the threshold behind, and polls at all exactly when it is called a threshold or more behind |
| EventStream.CatchupDetects | internal/ethereum/event_stream.go:554-594 | over any catchup, the detected checkpoint of each listener ends at the highest of its own events that were pushed and of where it was |
| EventStream.ListenerCatchup | internal/ethereum/event_listener.go:183-255 | mark, detected checkpoint, events pushed and outcome of the loop, for any positions of the lead group, page sizes, failures and removal |
| EventStream.OwnPageExactly | internal/ethereum/event_listener.go:191-252 | which of its inputs decide what becomes of an iteration, and the mark after a page: its size on, but not past the position of the lead group |
| EventStream.OwnDetects | internal/ethereum/event_listener.go:246-250 | over any run, the detected checkpoint ends at the highest of the events the loop pushed and of where it was |
| EventStream.OwnCovers | internal/ethereum/event_listener.go:209-252 | on any of those it polls every block it moves past, in pages that are full or end right below the position of the lead group (what was pushed: `OwnMissesNone`) |
| EventStream.OwnJoinsReady | internal/ethereum/event_listener.go:122-132 | a listener joins the lead group only when it was found less than the threshold behind |
| EventStream.OwnEnds | internal/ethereum/event_listener.go:191-254 | while the lead group stays where it is, the listener joins it within as many pages as it is behind |
| EventStream.EstablishHeadBlock | internal/ethereum/event_stream.go:481-512 | the highest mark of the initial listeners, or the stable head when there are none or that is past it |
| Handover.CatchupHandsOver | internal/ethereum/event_stream_getlogs.go:265-271 | when catchup is done at a head, the steady state that starts from there does not hand control back, and catchup did poll if the lowest mark was too far behind |
| Handover.LightNeverBounces | internal/ethereum/event_stream_getlogs.go:265-271 | in light mode, after any run and at any head, a cycle that hands control back finds catchup with a page to poll |
| Handover.BouncesExactly | internal/ethereum/event_stream_getlogs.go:265-271 | some head from now on makes both loops refuse to poll if and only if the position is two or more blocks behind the lowest mark, and catchup has nothing to poll yet |
| Handover.StaysAheadExactly | internal/ethereum/event_stream_getlogs.go:107-120 | in full mode the position stays at or in front of the lowest mark if and only if no cycle rewinds behind that mark and then has an empty page, no answer, no details for an event, or a page that ends in front of the mark |
| Handover.FullNeverBouncesWhileAhead | internal/ethereum/event_stream_getlogs.go:265-271 | while no cycle does, control never bounces, at any head |
| Handover.FullNeverBounces | internal/ethereum/event_stream_getlogs.go:95-121 | nor while the snapshots begin at or in front of the lowest mark |
| Handover.TrimmedListIsHigh | internal/ethereum/ethereum.go:201 | as the block listener's list does when it was trimmed to the monitored length and ends at the head |
| Handover.FullModeCanBounce | internal/ethereum/event_stream_getlogs.go:265-271 | a run from a reset, with settings that the connector accepts and their page size, and a head, where the steady state hands control back and catchup has nothing to poll |
| Handover.SnapshotsAreBuilt | pkg/ethblocklistener/blocklistener.go:519-521 | the snapshots of that run are lists that the block listener builds |
| ScanProtocol.StepKeepsInv | internal/ethereum/event_stream.go:206-335 | over every step of every loop no mark and no head position moves backwards, and a listener's own catchup never takes its mark past the lead group |
| ScanProtocol.RunKeepsInv | internal/ethereum/event_stream.go:255-594 | over all interleavings, and at every point of them, there is no hole below a mark, what a page returned was pushed before the mark moved, the detected checkpoint dominates what was pushed; in full mode the head position stays at or below the stable head and no mark passes the larger of its start and one past the stable head |
| ScanProtocol.EveryRunKeepsInv | internal/ethereum/event_stream.go:190-594 | so over every interleaving from a stream without listeners |
| ScanProtocol.MoveLeavesNoHole | internal/ethereum/event_stream.go:571-574 | moving a mark behind a page that begins at the scanned end leaves no hole, if what the listener wants of it was pushed |
| ScanSimulation.CycleIsRun | internal/ethereum/event_stream_getlogs.go:228-366 | every cycle of the steady state, in both modes and whatever becomes of it, is a run of the protocol to the same marks, checkpoints, position and head position, that polls the same page at the same marks with the same reply (in light mode its logs of blocks not delivered before), and pushes the same events in the same order |
| ScanSimulation.SteadyRunIsRun | internal/ethereum/event_stream_getlogs.go:217-367 | so is every run of the loop, with the pages of all its cycles and no others |
| ScanSimulation.CatchupRunIsRun | internal/ethereum/event_stream.go:255-337 | so is catchup of the lead group, with its pages and replies |
| ScanSimulation.OwnPageIsRun | internal/ethereum/event_listener.go:191-254 | so is every iteration of a listener's own catchup, with its page and reply, and joining the lead group |
| ScanSimulation.OwnRunIsRun | internal/ethereum/event_listener.go:183-255 | so is the whole loop |
| NoHoles.SteadyMissesNone | internal/ethereum/event_stream_getlogs.go:217-367 | over any run of the steady state, in both modes, each block from the mark of a listener to the mark it ends at was polled in one of the run's pages while it was not behind the mark, and each log the listener wants of the replies was pushed by the run |
| NoHoles.CatchupMissesNone | internal/ethereum/event_stream.go:255-337 | so over any run of the lead group's catchup |
| NoHoles.OwnMissesNone | internal/ethereum/event_listener.go:183-255 | so over any run of a listener's own catchup |
| ReceiptCache.Cache.Reset | pkg/ethblocklistener/block_receipt_fetcher.go:120-128 | empties the cache and starts a new generation, which is the reset step |
| ReceiptCache.Cache.Store | pkg/ethblocklistener/block_receipt_fetcher.go:136-150 | stores what a fetch read only if its generation is still the current one, which is the step that completes it |
| ReceiptCache.CompletedFetchIsCached | pkg/ethblocklistener/block_receipt_fetcher.go:136-150 | a fetch of the current generation leaves each receipt it read in the cache, the latest of each transaction, and changes no other |
| ReceiptCache.Cache.FetchEach | pkg/ethblocklistener/block_receipt_fetcher.go:94-100 | with resets and stores of others before each receipt, it comes from the cache if it is there by then and else from the node, and only an error ends the fetch |
| ReceiptCache.TurnIsStep | pkg/ethblocklistener/block_receipt_fetcher.go:94-100 | each turn that finds a receipt is a step of the runs below that reads it, from the cache or from the node, and leaves the cache as it is |
| ReceiptCache.OtherIsStep | pkg/ethblocklistener/block_receipt_fetcher.go:120-150 | what others do between two turns is a reset step or the completing step of their fetch |
| ReceiptCache.CacheStaysFresh | pkg/ethblocklistener/block_receipt_fetcher.go:51-177 | with any fetches in flight, resets between, and reads through the cache, every cached receipt was read from the node after the latest reset |
| ReceiptCache.EveryRunStaysFresh | pkg/ethblocklistener/block_receipt_fetcher.go:51-177 | so over every run from the empty cache |
| ReceiptCache.StaleFetchStoresNothing | pkg/ethblocklistener/block_receipt_fetcher.go:108-177 | a fetch begun before a reset never changes the cache, whenever it completes |

## Left out

- The block filter itself, and looking up the blocks it advertises: which blocks a batch has is an input.
- BlockFilterPoller.BatchDispatchesAdded: is on values, as positions in the list are indexes; what is dispatched from an
  element that was removed is not modelled. A batch ends when a reconcile is cancelled, as the listener is closing.
- The server-side log filter steady state: what it covers depends on state kept by the node.
- `ReconcileConfirmationsForTransaction` around the list: fetching the receipt, and the count in light mode.
- CanonicalChain.BlockListener.ReconcileCanonicalChain: positions in the list are indexes, so a list element that
  outlives its removal is not captured.
- ConfirmationReconciler.BuildConfirmationList: the in-memory chain is passed in as each of the two critical sections
  sees it, rather than read from the listener under a lock.
- LightMode.NothingLostNothingTwice: ends where the poll position is reset, as redelivery after that is dealt with
  by the transaction manager.
- FullMode.CanonicalWindowDelivered: assumes snapshots that reach down to one block above the stable head, which the
  block listener's list does once it fills its window; behind the stable head there is nothing to compare with.
- AggregatedListener.FilterEnrich: what details an event is enriched with is not modelled, only whether that
  succeeds. The sort that follows it is a permutation: in `ScanProtocol` the events of an answer are pushed in any
  order. A log without topics makes the program panic, and does not pass the topic filter of the query.
- SteadyState.LeadGroup.PollCycle: a stream that stops while events are pushed leaves the loop, which is not modelled
  here; in `ScanProtocol` each push is a step, after which the loop may take no other.
- ScanProtocol.RunKeepsInv: checks made earlier that may no longer hold, of readiness and of removal, are left out of
  the steps, pages can have any size within the limits, and a full-mode rewind can go to any position behind the current
  one. This only adds runs.
- EventStream.LeadGroupCatchup: the group stays the same over the loop, while the program rebuilds it between pages; in
  `ScanProtocol` it can change at any step.
- FullDelivery.FullModeLosesNothing: assumes nodes that answer from the chain of the snapshot and from the final chain
  behind it.
- In light mode the logs of blocks that were delivered before are dropped before `ScanProtocol` sees an answer;
  `LightMode` is about those.
- The check of block hashes in the receipts of one block, the number of receipts cached, and eviction order.
- JSON/RPC transport, WebSocket subscriptions, ABI decoding, timers, backoff, metrics, logging and configuration
  parsing.
