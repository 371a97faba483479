# A verified model of kafka-python's client protocols

This project models the parts of kafka-python in which several objects keep a protocol
together, and proves what the protocol is for. Every main result is about all inputs, all runs
or all reachable states.

- **Producer pipeline** (`ProducerModel`, `ProducerInvariants`, `ProducerSequences`,
  `ProducerRuns`, `ProducerDrain`, `ProducerReady`, `ProducerRetries`, `HeapTies`, `ProducerExpiry`,
  `ProducerHistory`, `ProducerRounds`, `ExactlyOnce`, `OrphanedBatches`, `OrphaningSteps`; the code in
  place in `RecordAccumulator`, `Sender`). The accumulator, the
  sender and the sequence numbers form one state machine of append, drain, send, response, expiry
  and producer id steps. Batches are conserved, each future completes once, a partition's requests
  leave in append order, and nothing the code guards with an exception can happen, unless two
  batches created at the same time meet in a heap, which guaranteed order excludes. Against a
  broker that checks sequences, over a network that loses, delays and repeats requests, each
  acknowledged batch is in the log exactly once and in order, through expiry, failures and
  producer id resets, as long as no batch is failed while the producer goes on with its producer
  id and sequence; after such a step an acknowledged batch can be lost.
- **Consumer fetch path** (`FetchSession`, `FetchAnswers`, `PartitionLog`, `PartitionRecords`,
  `ConsumerModel`, `ConsumerPolls`, `Fetcher`). The client's copy of an incremental fetch session stays
  equal to the broker's, and it uses every proper answer; the one-pass read_committed filter yields what
  a definition over the whole log says; no run of polls, seeks, pauses, reassignments and stale
  responses loses or repeats a record; and a poll reads everything at hand that it may.
- **Transactions** (`Transactions`, `TransactionSafety`, `TransactionOffsets`, `TransactionErrors`,
  `LostOffsets`, `CarelessAborts`, `TransactionManager`). When a committing EndTxn is released,
  everything the user sent is added, produced and acknowledged, and every offset the user added is
  acknowledged, unless the user aborts while the commit is pending or an error in a response raised.
  Every result handed to the user is accounted for.
- **Varints** (`Bits`, `Varint`), **xerial framing** (`Xerial`), **idle connections**
  (`IdleConnections`) and the **leader index** (`ClusterIndex`): fast or incremental forms
  against simple ones, with round trips.

State that the code updates in place is a class whose methods are proved against the functions
of a state machine on values: a method takes the value an object shows to the value the
machine's step gives. The theorems about runs are about the state machine.

`dafny verify dfyconfig.toml` checks the project (Dafny 4.11).

## Readings of the code

- A batch is a number, its rank of creation; the per-partition in-flight heaps are one set of
  batches, which carry their partition and creation time. Each locked region is one atomic step.
- A heap entry is a pair of creation time and batch, and batches have no order
  (`kafka/producer/sender.py:200-204`, `kafka/producer/sender.py:66-78`): when `heapq` compares two
  entries of the same time it raises. Which entries it compares is its own affair, except that a
  push onto a heap of one compares with that one; the machine lets any two tied entries of a heap
  be compared, the `Compare` step.
- Times are integers (milliseconds). For delivery the steps of the sender have a clock and an
  order (`ProducerRounds`): a round reads the clock, drains, scans the deques at the time it read
  and the heaps at the time of the scan, fails what it found, then drops the producer id or sends;
  responses are handled between rounds; no step goes behind the clock; records are appended at any
  time. The other results about the pipeline hold without that order.
- A record batch is a sequence of records with an open and a closed size; `room` stands for the
  builder's answer to whether a record fits. A closed batch refuses records. A batch holds
  fewer than 2^31 records, the range of its record count.
- The in-flight expiry scan reads the clock again instead of using the `now` of the round
  (`kafka/producer/sender.py:80-101`); the model has both readings.
- In transaction error paths the handlers call `_transition_to_fatal_error` and
  `_transition_to_abortable_error`, which are not defined under these names
  (`kafka/producer/transaction_manager.py:555-561`), so that the response raises, the handler is gone
  and its result is never done: the reply `Unhandled`. The replies `Fatal` and `Abortable` are the
  same errors with the methods found. Every theorem is about runs with any of them.
- The answer to an offset commit is looked at partition by partition, in any order. The names of its
  errors are looked up in the local dictionary `errors`
  (`kafka/producer/transaction_manager.py:943-953`), so any refused offset raises, whatever the error.
  Offsets are numbers, and all calls of a transaction name one consumer group.
- A transaction's user may make any call at any time, except that `send` is one step: a commit
  or abort in another thread between `maybe_add_partition_to_transaction` and `append`
  (`kafka/producer/kafka.py:869-873`) is excluded.
- The reset at the end of a round (`kafka/producer/sender.py:221-239`) is due from the moment an
  expired resend is found: until it has happened nothing is drained, sent or answered. The
  batches drained in that round are never sent. It is coming as soon as an expired resend waits
  in a deque, or in a heap with no request out: the next round is sure to find it.
- The documentation of `reset_producer_id` (`kafka/producer/transaction_manager.py:291-301`) says
  that a batch sent and then given up for a non-retriable error, for want of retries or by expiry
  resets the producer id. The code does so only for an expired resend and for an out-of-order
  sequence error (`kafka/producer/sender.py:221-239`, `kafka/producer/sender.py:426-453`); the
  model follows the code.
- The heap of transactional requests is ordered by priority and a running number, so it is
  modelled as a sequence in that order.

## Results that turned out false, and their conditions

- Without guaranteed order, which is the default, the pipeline can raise: in a reachable state a
  step raises exactly if two in-flight batches of a partition were created at the same time
  (`ProducerRuns.NothingRaises`). The raise cuts the round short, and the batches drained but not
  yet pushed are in no deque and no heap, so conservation ends with it (`HeapTies.TieStrands`,
  `HeapTies.TieIsReachable`). Under guaranteed order it cannot happen.
- A batch that is failed while its producer id and sequence stay current, with no reset coming, is
  orphaned: the next batch of the partition carries the same sequence. This happens when a first
  attempt expires, when an error arrives with the retries used up, and on an error that is not
  retriable (`OrphaningSteps.ExpiryOrphans`, `OrphaningSteps.LastRetryOrphans`,
  `OrphaningSteps.RejectionOrphans`). Safe delivery holds in all runs in which no batch is
  orphaned, whatever expires, fails or is reset (`ExactlyOnce.SafeDelivery`), and every step that
  orphans one has a continuation that loses an acknowledged batch
  (`OrphanedBatches.OrphaningLoses`), unless the delivery timeout is 0, when nothing is ever
  acknowledged (`OrphaningSteps.NothingAcknowledged`). Which steps these are can be told before
  they are taken: `OrphaningSteps.OrphansWhen`.
- A delayed copy is appended a second time exactly when its producer id has since written a
  multiple of 2^31 records to the partition: `OrphaningSteps.LateCopyRepeats`.
- An abort that is accepted while the request that commits the transaction is queued or in
  flight, and only such an abort, can let a commit out for a transaction being aborted or an
  abort outside of any transaction: `CarelessAborts.AbortIsCareless`.
- A committing EndTxn finds every offset that the user added acknowledged if no offset was refused and
  no error left unhandled in the transaction (`TransactionOffsets.CommitSafety`). A refused offset that
  no other request around carries is lost, its user's result is never done, and the transaction can
  still be committed (`LostOffsets.RefusedIsLost`, `LostOffsets.RefusedOffsetCanBeCommitted`).
- Pending offsets are not cleared at the end of a transaction. The next transaction can commit an offset
  that was not added to it if and only if some are still pending when it begins
  (`LostOffsets.StaleOffsetsStray`), as after an abort (`LostOffsets.AbortedOffsetsStayPending`).
- The answer to an offset commit leaves the user's result undone, even if every offset is accepted, when
  one of them is no longer pending, as after two calls for one partition
  (`TransactionOffsets.DoneIffAllPending`).
- A throttled reply to an incremental fetch that the broker did not carry out keeps the session
  mirror exactly if the request asked for no change: `FetchSession.ThrottledReplyKeepsMirror`.
- The broker index of the cluster metadata agrees with the leaders exactly if every entry of the
  response that names a leader says what the last entry for its partition in the last list of
  its topic says: `ClusterIndex.IndexesAgree`.
- `encode_varint_6` returns the size exactly up to five bytes and one less beyond, and
  `size_of_varint_2` is right exactly for numbers whose zigzag form is below 2^70:
  `Varint.EncodeVarint6`, `Varint.LadderIsSize`, `Varint.BeyondTheLadder`.
- The xerial round trip needs a non-empty payload and a positive block size: `Xerial.RoundTrip`.
- Decoding need not end: a block length of -4 leaves the cursor where it is, for ever if the
  decompressor accepts the empty string (`Xerial.StandsStill`). If it refuses it, decoding ends on
  every stream whose lengths keep the cursor from going before the beginning (`Xerial.DecodingEnds`).
- Without fetch sessions a response that names an unrequested partition raises; with them no
  response does: `FetchSession.FetchRequests.HandleFetchResponse`.
- `increment_sequence_number` wraps correctly exactly while base plus increment stays below
  2^32: `ProducerSequences.IncrementWraps`.

## Model

| member | source | states |
|---|---|---|
| ProducerRuns.NothingRaises | kafka/producer/sender.py:426-519 | in every reachable state a step can raise if and only if two in-flight batches of one partition were created at the same time, and then only for that; under guaranteed order nothing raises: no closed batch is stamped, no batch succeeds twice, `muted.remove` finds its partition, every sequence increment finds its entry, no completed batch is found in a heap |
| ProducerRuns.Conservation | kafka/producer/record_accumulator.py:112-158 | in every run, up to the comparison of two tied batches if there is one, and without exception under guaranteed order: queued and in-flight batches are disjoint and, outside an expiry scan, together are the incomplete set; a batch is out of it exactly when its future was completed and its final state set, which happens once however many late responses arrive |
| ProducerRuns.PartitionOrder | kafka/producer/record_accumulator.py:357-365 | in every ordered run, with retries and expiry: at most one outstanding batch per partition, its partition muted, older than its deque; deques sorted by creation; requests leave in append order |
| ProducerRuns.SequenceCountsAcks | kafka/producer/transaction_manager.py:318-331 | in every run the sequence number is the number of records acknowledged under the current producer id modulo 2^31, and stays in 0..2147483647 |
| ProducerRuns.WrittenIsForever | kafka/producer/record_accumulator.py:499-526 | every step keeps the producer id, sequence and records of a stamped batch, so a retry resends them unchanged, and never revises a final state |
| HeapTies.TieStrands | kafka/producer/sender.py:200-204 | whatever round a reachable producer drains, if the push of its k-th batch raises, the first k+1 are in the heaps and all later ones are incomplete and in no deque, heap or request, so that conservation fails |
| HeapTies.TieIsReachable | kafka/producer/sender.py:197-210 | such a tie is reachable: two batches of a partition are created at the same time, and the second is drained, together with one of another partition, while the first is in flight |
| HeapTies.TieCutsShort | kafka/producer/sender.py:200-204 | a tie in a round leaves exactly that state, and never happens under guaranteed order |
| ProducerInvariants.StepKeepsStructure | kafka/producer/record_accumulator.py:261-365 | one step keeps the place of every batch: exactly one of deque, heap and expiry result while incomplete |
| ProducerInvariants.StepKeepsOrder | kafka/producer/sender.py:200-210 | one step under guaranteed order keeps the outstanding batch unique, muted and oldest, and the send history ordered |
| ProducerSequences.IncrementWraps | kafka/producer/transaction_manager.py:322-331 | the two-branch increment equals addition modulo 2^31, and stays in range, exactly while base plus increment is below 2^32 |
| ProducerSequences.StepKeepsSequences | kafka/producer/sender.py:507-515 | one step keeps every partition's sequence number equal to its acknowledged records modulo 2^31 |
| ProducerHistory.StepKeepsDated | kafka/producer/sender.py:468-519 | one step of an idempotent, ordered producer keeps: no live batch of a partition is older than a stamped one; whatever was created after a queued batch that was never sent is queued behind it; a first attempt under the current producer id is drained or its request is out |
| ProducerHistory.StepKeepsUser | kafka/producer/record_accumulator.py:261-329 | one step keeps the records of a partition's batches, in order of creation, equal to what the application appended |
| ProducerRounds.PressingStays | kafka/producer/sender.py:212-239 | a reset that is coming stays so, through every step but the reset itself |
| ProducerRounds.EndScan | kafka/producer/sender.py:212-224 | the scans of a round find every expired resend they can: when they end without a reset due, none was to be found, and one that is coming for the next round still is |
| ProducerRounds.ArrivingShrinks | kafka/producer/sender.py:237-274 | no step but a drain adds to the batches whose request is out or can still go out, and a drain adds its own only |
| ExactlyOnce.SafeDelivery | kafka/producer/sender.py:212-274 | in every run of an idempotent, ordered producer, with expiry, failures, resets, retries, lost, delayed and repeated requests and lost replies, with the sender's steps in their order and time, in which no batch is orphaned and no copy comes round: each log holds a batch at most once, every acknowledged batch is in it and no batch appended later precedes it, and the batches hold what the application appended, in order |
| ExactlyOnce.ExactlyOnceDelivery | kafka/producer/record_accumulator.py:484-535 | if moreover every error is retried: the log's records are a prefix of what was appended, in append order; nothing fails; once all is complete the log is what was appended |
| ExactlyOnce.DeliverStaysOk | kafka/producer/record_accumulator.py:499-526 | any copy of any request, however old, leaves the broker's log of the partition in order: an old copy does not carry the expected sequence, the next one always does |
| ExactlyOnce.ClientKeepsSound | kafka/producer/sender.py:426-519 | every step of the producer that orphans no batch keeps, for every partition: the log counts records per producer id, at most one batch of a producer id is missing and carries the next sequence, and, unless a reset is coming, the current sequence number is the broker's or that of the one open batch |
| OrphanedBatches.OrphaningLoses | kafka/producer/transaction_manager.py:291-301 | after any careful run nothing acknowledged is lost, a step that orphans no batch keeps it so, and a step that orphans one, from whatever state, has a continuation in order and time at whose end an acknowledged batch is in no log, if the delivery timeout is not 0 |
| OrphanedBatches.ScanLeads | kafka/producer/sender.py:212-235 | with no reset coming the scans under way can be brought to their end without one becoming due |
| OrphaningSteps.OrphansWhen | kafka/producer/sender.py:426-500 | a step orphans its batch if and only if the batch is unfinished and of the current producer id, no reset is coming and no fatal error was met, and it is failed as expired or by an error that is neither retried, fatal nor an out-of-order sequence |
| OrphaningSteps.NothingAcknowledged | kafka/producer/sender.py:80-101 | with a delivery timeout of 0 no batch is ever acknowledged, so none is lost |
| OrphaningSteps.ExpiryOrphans | kafka/producer/sender.py:212-239 | for every idempotent, ordered configuration with a delivery timeout: a first attempt that the broker has appended expires, is orphaned, and an acknowledged batch can be lost |
| OrphaningSteps.LastRetryOrphans | kafka/producer/sender.py:468-500 | the same for a retriable error with the one retry used up |
| OrphaningSteps.RejectionOrphans | kafka/producer/sender.py:426-453 | the same, for every such configuration, for an error that is not retriable |
| OrphaningSteps.LateCopyRepeats | kafka/producer/transaction_manager.py:322-331 | a delayed copy leaves each batch once in the log if and only if its producer id has not since written a multiple of 2^31 records |
| ProducerDrain.DrainIsRun | kafka/producer/record_accumulator.py:466-536 | the drain loop of one node, with the sender's registration, is a run of single drain steps of the pipeline |
| ProducerDrain.DrainTakesHeads | kafka/producer/record_accumulator.py:476-535 | the loop takes the heads of the deques of pairwise different partitions among those it visits, and touches no other deque or batch |
| ProducerDrain.DrainFitsRequest | kafka/producer/record_accumulator.py:499-535 | the drained sizes stay within max_size unless a single batch is drained, if closing never grows a batch |
| ProducerDrain.DrainsSomething | kafka/producer/record_accumulator.py:476-536 | the loop returns a batch if and only if the first partition it does not skip may be sent to |
| ProducerDrain.RoundApart | kafka/producer/sender.py:401-419 | the batches of a whole round have pairwise different partitions, so the dictionaries by partition lose none |
| ProducerDrain.EveryNodeDrains | kafka/producer/record_accumulator.py:538-560 | a node with a drainable partition gets a batch however many nodes are drained before it |
| ProducerReady.NotReadyWhen | kafka/producer/record_accumulator.py:420-442 | in every reachable state a partition is ready unless it has no batch, is muted, its head was attempted less than the back-off ago, or its head lingers: the only batch, open, below the batch size, not forced out, never attempted and created less than `linger` ago |
| ProducerReady.WaitIsExact | kafka/producer/record_accumulator.py:424-430 | the wait ends and no sooner: with the deques unchanged, a partition that is not ready at one time is ready at exactly the times from the end of its computed wait on, and one that is ready stays ready |
| ProducerReady.NextCheckIsExact | kafka/producer/record_accumulator.py:398-445 | two calls of `ready` with the deques unchanged: no node drops out, none comes before the first call's check time, and from then on the node of a partition that was waiting is reported |
| ProducerRetries.RetriesAreTimely | kafka/producer/sender.py:521-529 | in every reachable state a batch marked as a retry was put back within the delivery timeout of its creation, after at most `retries` attempts; any other was never attempted |
| ProducerRetries.RetriedWhen | kafka/producer/sender.py:468-500 | in every reachable state an error response puts its batch back at the head of its deque, once more attempted, if and only if the error is retriable, the batch has no final state, fewer than the delivery timeout have passed since its creation, fewer than `retries` attempts were made and, with idempotence, the producer id and epoch it was sent with are still the producer's; otherwise it is failed, if it was not before |
| ProducerExpiry.TimelyIsComplete | kafka/producer/record_accumulator.py:331-355 | after the scans no incomplete batch has expired and the next expiry time is no later than any incomplete batch's deadline, under guaranteed order |
| ProducerExpiry.NextExpiryIsEarliest | kafka/producer/record_accumulator.py:331-355 | after the scans the next expiry time is the earliest deadline of the incomplete batches, and infinite if and only if there are none, under guaranteed order |
| ProducerExpiry.HeadExpiresFirst | kafka/producer/record_accumulator.py:337-355 | an unexpired head means no expired batch behind it, and its deadline is the deque's first |
| Accumulator.IdempotenceState.SequenceNumber | kafka/producer/transaction_manager.py:318-320 | reading creates the missing entry with 0 and changes nothing else |
| Accumulator.IdempotenceState.IncrementSequenceNumber | kafka/producer/transaction_manager.py:322-331 | the entry is incremented with wrap-around, or nothing changes and the call fails if there is none |
| Accumulator.RecordAccumulator.Append | kafka/producer/record_accumulator.py:261-329 | takes the shown pipeline state to the one after the append step; a new batch is reported exactly if one was started, a full one exactly if the deque holds more than one or its last is full |
| Accumulator.RecordAccumulator.Reenqueue | kafka/producer/record_accumulator.py:357-365 | the batch is back at the head of its deque, marked as a retry, with one more attempt |
| Accumulator.RecordAccumulator.Ready | kafka/producer/record_accumulator.py:367-445 | a node is reported if and only if it leads a partition with a sendable head; unknown leaders are reported exactly; the next check is no later than the wait of any partition that can wait and is the wait of one of them, or none; what readiness and wait mean is `ProducerReady` |
| Accumulator.RecordAccumulator.CheckHead | kafka/producer/record_accumulator.py:420-442 | whether the head is ready, which `ProducerReady.NotReadyWhen` tells, and its wait, which `ProducerReady.WaitIsExact` shows to be exact |
| Accumulator.RecordAccumulator.DrainBatchesForOneNode | kafka/producer/record_accumulator.py:466-536 | from any drain index the rotating loop ends, visits each partition at most once and takes what the simple drain takes in rotated order |
| Accumulator.RecordAccumulator.TakeHead | kafka/producer/record_accumulator.py:513-532 | pops and closes the head, stamping it with producer id and sequence unless it is a retry |
| Accumulator.RecordAccumulator.Drain | kafka/producer/record_accumulator.py:538-560 | drains node after node, each in some rotation of its partitions |
| Accumulator.RecordAccumulator.MaybeUpdateNextBatchExpiryTime | kafka/producer/record_accumulator.py:334-335 | the next expiry time becomes the minimum of itself and the batch's deadline |
| Accumulator.RecordAccumulator.ExpiredBatches | kafka/producer/record_accumulator.py:337-355 | takes out exactly expired batches, as a run of expiry steps, and leaves every deque empty or with a live head that the next expiry time covers; that time is as before or the deadline of such a head |
| SenderThread.Sender.Done | kafka/producer/record_accumulator.py:112-158 | a final state is set once; a second success fails; a late result of a failed batch changes nothing |
| SenderThread.Sender.FailBatch | kafka/producer/sender.py:426-453 | takes the shown state to that of the failure step, with the producer id reset or the fatal state it causes |
| SenderThread.Sender.RetryOrFail | kafka/producer/sender.py:468-500 | takes the shown state to that of the error branch, which `ProducerRetries.RetriedWhen` tells: put back if and only if it is in time, has attempts left, is not final, the error is retriable and its producer id still current, else failed |
| SenderThread.Sender.CompleteBatch | kafka/producer/sender.py:455-519 | the shown state, without ties, goes to that of the response step, unmuting included, and nothing raises |
| SenderThread.Sender.HandleResponse | kafka/producer/sender.py:391-424 | in a state without ties a response or error to any awaited request is a step of the pipeline and raises nothing |
| SenderThread.Sender.RegisterDrained | kafka/producer/sender.py:200-210 | every drained batch is in the in-flight heaps and its partition muted if order is guaranteed, unless one of them ties with a batch in flight: then the batches up to that one are pushed, the others are not, nothing is muted and the call raises |
| SenderThread.Sender.ExpireHeap | kafka/producer/sender.py:80-101 | pops exactly the expired batches of a heap, none of them final, and leaves only live ones that the next expiry time covers |
| SenderThread.Sender.Expire | kafka/producer/sender.py:212-235 | both scans and the failing are a run; only expired batches are failed; the answer, and with idempotence the due reset, is yes if and only if one of them had been sent before; afterwards the state is timely |
| SenderThread.Sender.SendOrReset | kafka/producer/sender.py:237-274 | on a reset the producer id and all sequences are dropped and nothing is sent; otherwise exactly the drained batches are sent, in order, and nothing else changes |
| SenderThread.Sender.SendProducerData | kafka/producer/sender.py:174-275 | it raises if and only if a drained batch ties with one in flight, which strands the later ones and never happens under guaranteed order; otherwise the round is a run of the pipeline, so it keeps every invariant and ends timely; exactly the ready and connected nodes are drained and each has a batch among the drained ones unless sending is held back; these are sent, or, if and only if an expired batch had been sent before, the producer id is dropped and nothing is sent |
| SenderThread.ReadyNodesAreDrained | kafka/producer/record_accumulator.py:398-445 | with the metadata and clock of the ready call, every reported node gets at least one batch in the round |
| FetchSession.EpochsWrap | kafka/consumer/fetcher.py:1233-1250 | a session's n-th epoch is 1 + (n - 1) mod (2^31 - 1): it wraps to 1, never to 0 or -1 |
| FetchSession.DeltaRebuilds | kafka/consumer/fetcher.py:1122-1140 | applying to_send and to_forget to the old partitions gives exactly the new ones, and no smaller delta does |
| FetchSession.UsedIffUsable | kafka/consumer/fetcher.py:1142-1205 | any response at all is used if and only if it has no error, names only partitions of the session and, if the request was full, all of them |
| FetchSession.NextRequestCarries | kafka/consumer/fetcher.py:1142-1205 | the session id and epoch of the next request after any response: 0 and 0 for an unknown session, the old id and 0 after any other error or an improper incremental response, those of the session the response opens or continues, or the same again when throttled; and the request rebuilds the wanted partitions |
| FetchAnswers.AnswersAreUsed | kafka/consumer/fetcher.py:1142-1205 | in every run with a broker that answers what it is asked, with evictions, losses and late requests: an answer that arrives is used if and only if it has no error, and the next request is in the session it names |
| FetchAnswers.SessionGoesOn | kafka/consumer/fetcher.py:1108-1208 | from any reachable state one request and its answer leave client and broker in one session with exactly the wanted partitions and the same epoch, the one before if there was one; if the broker had dropped it the client starts anew |
| FetchSession.SessionMirror | kafka/consumer/fetcher.py:1108-1208 | in every run with evictions, lost requests and responses, and lost requests processed late: in a session the broker still has, both sides hold the same partitions and epoch, and an incremental request is accepted and makes the broker's partitions the client's |
| FetchSession.ThrottledReplyKeepsMirror | kafka/consumer/fetcher.py:1193-1197 | after a throttled incremental reply the mirror holds if and only if the request asked for no change |
| FetchSession.ThrottledReplyCanBreakMirror | kafka/consumer/fetcher.py:1193-1197 | reachable: a session is opened for two partitions, one is dropped, and after the throttled reply the mirror is broken |
| FetchSession.FetchSessionHandler.BuildNext | kafka/consumer/fetcher.py:1108-1140 | the session becomes the wanted partitions and the request is the full map or the delta |
| FetchSession.FetchSessionHandler.HandleResponse | kafka/consumer/fetcher.py:1142-1205 | the response is used if and only if it is usable, and the next metadata are those `FetchSession.NextRequestCarries` tells |
| FetchSession.FetchSessionHandler.HandleError | kafka/consumer/fetcher.py:1207-1208 | the next request is a full one that closes the session |
| FetchSession.FetchRequests.SendFetch | kafka/consumer/fetcher.py:142-160 | no request is built for a node with a pending one; else its session covers exactly the partitions with a recorded fetch offset |
| FetchSession.FetchRequests.HandleFetchResponse | kafka/consumer/fetcher.py:750-777 | with fetch sessions the lookup of fetch offsets fails for no response; without them it succeeds if and only if the response names only requested partitions; a usable response completes one fetch for each of its partitions, with the offset of the request, any other none; the session's metadata follow and only this request stops being pending |
| FetchSession.FetchRequests.HandleFetchError | kafka/consumer/fetcher.py:782-792 | the node has no pending request any more and its next one is full |
| PartitionLog.FilterIsExact | kafka/consumer/fetcher.py:980-1054 | for every well-formed log and answer, the queue-and-set filter followed by dropwhile yields exactly the log's visible records from the fetch offset to the answer's end, in order |
| PartitionLog.StreamIsFilter | kafka/consumer/fetcher.py:994-1018 | from any point of a segment with a right filter state, the rest of the output is the visible records of the rest |
| PartitionLog.SkipsAborted | kafka/consumer/fetcher.py:1077-1078 | after consuming the queue, a producer is in the set exactly if its batch belongs to an aborted transaction |
| PartitionLog.ConsumeTakesBegun | kafka/consumer/fetcher.py:1070-1075 | the loop moves exactly the transactions begun by the offset from the queue to the set |
| PartitionLog.WindowIsFilter | kafka/consumer/fetcher.py:935-945 | a window of the visible records holds exactly those with offsets in the range |
| PartitionReader.PartitionRecords.ConsumeAbortedTransactionsUpTo | kafka/consumer/fetcher.py:1070-1075 | the filter state becomes that of the consuming function |
| PartitionReader.PartitionRecords.EnterBatch | kafka/consumer/fetcher.py:994-1022 | skips the batch, and updates the filter, as the filter function says |
| PartitionReader.PartitionRecords.NextRecord | kafka/consumer/fetcher.py:980-1054 | the first of the remaining records, with the position behind it; at the end the position is past the last batch and the reader is drained |
| PartitionReader.PartitionRecords.Take | kafka/consumer/fetcher.py:967-978 | exactly the next n remaining records, or all; drained if and only if fewer than n remained; the position follows the last record |
| PartitionReader.PartitionRecords.TakeAll | kafka/consumer/fetcher.py:967-978 | portions of any sizes, concatenated, are one read of as many records |
| PartitionReader.PortionIsWindow | kafka/consumer/fetcher.py:1013-1054 | a portion is what lies between the old and the new position, the rest lies after it; the position exceeds every returned offset and no remaining one |
| ConsumerModel.NoGapNoRepeat | kafka/consumer/subscription_state.py:418-476 | in every run of responses of any age, polls, pauses, seeks, resets and reassignments: what was handed out since the position was set ascends strictly and is every visible record from there up to the position, and nothing else |
| ConsumerModel.PollIsExact | kafka/consumer/fetcher.py:294-354 | a poll in a reachable state hands out at most max_records records, and for each partition exactly those between its old and its new position |
| ConsumerPolls.PollCompletes | kafka/consumer/fetcher.py:294-354 | in every run: a poll that hands out fewer records than it may has read every response at hand, each position is where the chain of its partition's responses leads, or lost there with a reset awaited, and what was handed out for the partition is every visible record from the old position to that place; a poll that hands out all it may leaves that place as it was |
| ConsumerPolls.PollIsOnItsWay | kafka/consumer/fetcher.py:333-354 | no poll changes where a partition's position is headed, and it stops short only when it has handed out all it may |
| ConsumerPolls.LostToOutOfRange | kafka/consumer/fetcher.py:862-878 | the chain of a partition's responses ends in the loss of the position if and only if it reaches an out-of-range answer at the very place the earlier ones lead to |
| ConsumerPolls.OldestIsHandedOut | kafka/consumer/fetcher.py:333-406 | the oldest response, if next in line and no error: the first min(n, its number) of its visible records from the position on come first, and the position moves behind the last of them, or to the response's end if more was allowed |
| ConsumerPolls.ResponseIsRead | kafka/consumer/fetcher.py:750-777 | a response that arrives leads its partition on from where those at hand lead |
| ConsumerPolls.PausedStandsStill | kafka/consumer/subscription_state.py:396-397 | in any run that leaves a paused partition assigned and does not seek, reset or resume it, its position stays and nothing is handed out for it |
| ConsumerPolls.ResetsEndWithSeeks | kafka/consumer/subscription_state.py:437-467 | in every run no reset is awaited where a position is known |
| ConsumerModel.PollKeeps | kafka/consumer/fetcher.py:333-354 | a whole poll keeps the account of every partition |
| ConsumerModel.FaithfulIsWindow | kafka/consumer/fetcher.py:794-857 | the reader of a broker's answer hands out the log's window up to the answer's end |
| Fetching.SubscriptionState.Pause | kafka/consumer/subscription_state.py:396-397 | only the paused flag of an assigned partition changes; an unassigned one is an error |
| Fetching.SubscriptionState.Resume | kafka/consumer/subscription_state.py:399-400 | only the paused flag of an assigned partition changes; an unassigned one is an error |
| Fetching.SubscriptionState.Seek | kafka/consumer/subscription_state.py:463-467 | the position is set and a pending reset ends |
| Fetching.SubscriptionState.RequestOffsetReset | kafka/consumer/subscription_state.py:437-441 | the position is dropped until the reset |
| Fetching.SubscriptionState.Assign | kafka/consumer/subscription_state.py:201-262 | exactly the given partitions are assigned; a user's assignment keeps the state of those that stay |
| Fetching.Fetcher.ParseFetchedData | kafka/consumer/fetcher.py:794-857 | the oldest response is taken off; it is read if and only if its partition may be fetched, it starts at the position and has no error; the position is given up if and only if such a response says out of range; any other changes nothing |
| Fetching.Fetcher.AppendRecords | kafka/consumer/fetcher.py:356-406 | a portion if the response is next in line, else the response is given up; the position follows |
| Fetching.Fetcher.FetchedRecords | kafka/consumer/fetcher.py:294-354 | the loop ends and returns at most max_records records grouped by partition in order; if it returns fewer, no response is left, every position is where the responses at hand led, and the records of each partition are all those of the log up to there |
| TransactionOffsets.CommitSafety | kafka/producer/transaction_manager.py:333-366 | in every run in which no abort is accepted while a commit is pending, when a committing EndTxn is released: the state is committing, nothing else is queued or in flight, no batch is incomplete or failed, the partitions named, added and produced to are the same, and every offset the user added was acknowledged unless one was refused or an error not handled |
| TransactionOffsets.SkippedOnlyIfEmpty | kafka/producer/transaction_manager.py:352-362 | an EndTxn is skipped only if no partition and no offsets were added; a commit only if the user sent nothing and, unless an error was not handled, added no offset; the state is then ready |
| TransactionOffsets.StepKeepsOffsets | kafka/producer/transaction_manager.py:866-982 | every careful step keeps: in an active transaction without refusal or unhandled error, each offset the user added is acknowledged or carried by a request queued or in flight; pending, carried and acknowledged offsets are the user's or were pending when the transaction began |
| TransactionOffsets.AckedWereAsked | kafka/producer/transaction_manager.py:866-880 | in every careful run the offsets acknowledged for a transaction were added by the user or pending when it began |
| TransactionOffsets.DoneIffAllPending | kafka/producer/transaction_manager.py:943-981 | the answer to an offset commit sets the user's result done if and only if it refuses no offset and all are still pending; then none of them is pending any more |
| LostOffsets.RefusedIsLost | kafka/producer/transaction_manager.py:943-976 | an offset that is refused and that no other request around carries: the reply raises in the same phase, the user's result is never done, and however the transaction goes on without further offsets, the offset is not acknowledged in it |
| LostOffsets.RefusedOffsetCanBeCommitted | kafka/producer/transaction_manager.py:943-976 | a reachable state with a committing EndTxn in flight for a transaction whose only offset was refused |
| LostOffsets.StaleOffsetsStray | kafka/producer/transaction_manager.py:486-492 | after any careful run to the ready state, the next transaction can commit an offset that was not added to it if and only if offsets are still pending |
| LostOffsets.AbortedOffsetsStayPending | kafka/producer/transaction_manager.py:486-492 | reachable: after an aborted transaction its offset is pending, and the next one can commit it |
| TransactionErrors.RepliesRaiseWhen | kafka/producer/transaction_manager.py:555-588 | in every careful run a reply raises if and only if it is a producer id after a fatal error, the end of a transaction that failed meanwhile, an abortable error outside of a transaction or after a fatal one, an error whose method does not exist, or an offset refused or no longer pending |
| TransactionErrors.LookupGoesFirst | kafka/producer/transaction_manager.py:571-580 | a request that needs its coordinator looked up: without a fatal error the lookup is what goes out next, with the request still queued |
| TransactionErrors.ErrorTakesHead | kafka/producer/transaction_manager.py:333-366 | in an error state the head of the queue is failed and nothing goes out, except a lookup after an abortable error |
| TransactionErrors.FatalIsFinal | kafka/producer/transaction_manager.py:67-88 | after a fatal error, in every run: the phase stays, every call raises and changes nothing, and no request goes out |
| TransactionErrors.FatalFailsEverything | kafka/producer/transaction_manager.py:452-460 | after a fatal error, with nothing in flight and no batch left, asking as often as there are requests sets every result done that was not lost before |
| TransactionErrors.AbortStands | kafka/producer/transaction_manager.py:259-269 | while a transaction is being aborted only its end or a fatal error changes the phase |
| TransactionSafety.PhaseFollowsTable | kafka/producer/transaction_manager.py:67-88 | from any state every step moves the state only along the table of valid transitions |
| TransactionSafety.StepKeepsInvariant | kafka/producer/transaction_manager.py:141-202 | every step keeps: unless an error was not handled, pending partitions are covered by a request and the three sets make up what was named; at most one request begins or ends a transaction, no request holds a result that is done, each request is in place for its state |
| TransactionSafety.EndTxnIsLast | kafka/producer/transaction_manager.py:91-98 | an EndTxn at the head of the queue is alone in it |
| TransactionOffsets.ResultsAreCounted | kafka/producer/transaction_manager.py:571-588 | in every run, with a careful user or not, the results still to be done are exactly as many as the requests queued or in flight that hold one, and those lost to replies that raised |
| CarelessAborts.AbortIsCareless | kafka/producer/transaction_manager.py:164-180 | after any such run, an accepted abort can lead to a commit sent for a transaction being aborted, or an abort sent outside of a transaction, if and only if the request that commits is queued or in flight when abort is called |
| CarelessAborts.ImpatientUserCommitsAborted | kafka/producer/transaction_manager.py:164-180 | a reachable state in which a committing EndTxn is in flight while aborting, and partitions were sent to that were not added |
| TransactionManagement.TransactionManager.TransitionTo | kafka/producer/transaction_manager.py:425-442 | the state changes if and only if the transition is valid |
| TransactionManagement.TransactionManager.EnqueueRequest | kafka/producer/transaction_manager.py:465-474 | the handler comes behind all of the same or a more urgent priority |
| TransactionManagement.TransactionManager.EnqueueNewPartitions | kafka/producer/transaction_manager.py:494-498 | new partitions become pending and one request covers all pending ones |
| TransactionManagement.TransactionManager.CompleteTransaction | kafka/producer/transaction_manager.py:486-492 | ready, with all sets empty, or nothing changes |
| TransactionManagement.TransactionManager.InitializeTransactions | kafka/producer/transaction_manager.py:141-149 | only an uninitialized manager starts initializing, with an InitProducerId request queued; otherwise refused and nothing changes |
| TransactionManagement.TransactionManager.BeginTransaction | kafka/producer/transaction_manager.py:151-155 | only from ready, and not in an error state; otherwise refused and nothing changes |
| TransactionManagement.TransactionManager.MaybeAddPartition | kafka/producer/transaction_manager.py:194-218 | the partition is new unless added or pending; refused outside a transaction or after an error |
| TransactionManagement.TransactionManager.SendOffsetsToTransaction | kafka/producer/transaction_manager.py:182-192 | an AddOffsets request for the offsets is queued, only within a transaction without error; otherwise refused and nothing changes |
| TransactionManagement.TransactionManager.BeginCommit | kafka/producer/transaction_manager.py:157-180 | new partitions are requested before the EndTxn |
| TransactionManagement.TransactionManager.BeginAbort | kafka/producer/transaction_manager.py:164-180 | new partitions are dropped and an aborting EndTxn queued |
| TransactionManagement.TransactionManager.NextRequestHandler | kafka/producer/transaction_manager.py:333-366 | waits, terminates, skips or releases the head of the queue as the state machine does |
| TransactionManagement.TransactionManager.HandleSuccess | kafka/producer/transaction_manager.py:677-736 | the effect of each handler's successful response; after AddOffsets the commit of all pending offsets is queued, without which `TransactionOffsets.CommitSafety` and `TransactionOffsets.ResultsAreCounted` fail |
| TransactionManagement.TransactionManager.OnComplete | kafka/producer/transaction_manager.py:571-588 | the reply's step: success, retry with or without a coordinator lookup, fatal or abortable error as intended or as it raises, or the results of an offset commit |
| TransactionManagement.TransactionManager.HandleResults | kafka/producer/transaction_manager.py:938-982 | accepted offsets are taken off the pending ones in order; it raises at the first that is refused or no longer pending |
| Varint.EncodeVarint1 | kafka/benchmarks/varint_speed.py:87-114 | for every integer the encoding if it fits ten bytes, else an error |
| Varint.EncodeVarint2 | kafka/benchmarks/varint_speed.py:117-127 | for every integer the encoding |
| Varint.EncodeVarint3 | kafka/benchmarks/varint_speed.py:130-141 | appends the encoding and returns 0 |
| Varint.EncodeVarint4 | kafka/benchmarks/varint_speed.py:144-175 | unrolled branches and loop write the same encoding |
| Varint.EncodeVarint5 | kafka/benchmarks/varint_speed.py:178-189 | the encoding stands in the array from the position on, nothing else changes, the end position is returned; a short array is an error |
| Varint.EncodeVarint6 | kafka/benchmarks/varint_speed.py:191-231 | appends the encoding; returns its size, except in the general branch one less |
| Varint.SizeOfVarint1 | kafka/benchmarks/varint_speed.py:234-244 | the size of the encoding, for every integer |
| Varint.LadderIsSize | kafka/benchmarks/varint_speed.py:247-269 | the threshold ladder is the size of the encoding if and only if the zigzag form is below 2^70; so for all 64-bit numbers |
| Varint.BeyondTheLadder | kafka/benchmarks/varint_speed.py:247-269 | for 2^69 and every higher power of two the encoding takes more than ten bytes and the ladder says ten |
| Varint.Int64Size | kafka/benchmarks/varint_speed.py:87-98 | a 64-bit number takes 1 to 10 bytes |
| Varint.DecodeVarint1 | kafka/benchmarks/varint_speed.py:290-320 | on every buffer and position the reading function's number and end, or its error |
| Varint.DecodeVarint2 | kafka/benchmarks/varint_speed.py:323-335 | the same as decoder 1 on every buffer and position |
| Varint.DecodeVarint3 | kafka/benchmarks/varint_speed.py:338-356 | the same, with single bytes decoded without the loop |
| Varint.UnrolledIsBase128 | kafka/benchmarks/varint_speed.py:144-166 | the unrolled bytes are those of the recursive definition |
| Varint.ZigZagRoundTrip | kafka/benchmarks/varint_speed.py:99-100 | the bit formulas of encoder and decoder are inverse on 64-bit numbers |
| Varint.RoundTrip | kafka/benchmarks/varint_speed.py:290-356 | decode(prefix + encode(n) + suffix) gives n and the exact end position for every 64-bit n |
| Xerial.SnappyEncode | kafka/codec.py:110-170 | the plain compressed payload, or with framing the header and the blocks, or the error |
| Xerial.SnappyDecode | kafka/codec.py:208-230 | on every stream on which the cursor loop ends, with Python's slices for any length: the concatenated blocks, or the error; other streams go to the plain decompressor |
| Xerial.DecodingEnds | kafka/codec.py:219-225 | if the decompressor refuses the empty string, the loop ends on every stream in which no length puts the cursor before the beginning |
| Xerial.StandsStill | kafka/codec.py:219-225 | at a length of -4 the loop ends if and only if the decompressor refuses the empty string |
| Xerial.MoreTurns | kafka/codec.py:219-225 | once the loop has ended more turns change nothing, so the result is one |
| Xerial.BlockReadsBack | kafka/codec.py:217-225 | the cursor lands exactly on the end of a block, whose payload is read back |
| Xerial.UnpackIsSigned | kafka/codec.py:219-225 | a block length is a 32-bit big-endian number in two's complement |
| Xerial.SliceHas | kafka/codec.py:219-225 | the slices are Python's: negative ends count from the end, what lies outside is left out |
| Xerial.RoundTrip | kafka/codec.py:142-228 | decoding an encoded payload ends, within as many turns as it has bytes, and gives it back if it is not empty and the block size positive; the exact condition otherwise |
| Xerial.PlainRoundTrip | kafka/codec.py:139-140 | without framing a payload is read back unless its compressed form looks like a framed stream, which is then read as one |
| IdleConnections.ChecksAreComplete | kafka/client_async.py:1203-1262 | after any sequence of uses, removals and checks: sorted by time, the first entry oldest, the next check no later than any expiry; a check that returns nothing hides no expired connection, one that returns a connection returns the oldest, expired |
| IdleConnections.HoldsLastUses | kafka/client_async.py:1213-1221 | after any sequence of uses, removals and checks the dictionary holds a connection with a time if and only if it was used at that time and neither used nor removed since |
| IdleConnections.NextCheckIsExact | kafka/client_async.py:1237-1262 | after a check that looked, the next check time is reached exactly when some connection has expired |
| IdleConnections.ExpiresAfter | kafka/client_async.py:1203-1226 | a connection expires when it has been idle for the limit, and never if the limit is not positive |
| IdleConnections.IdleConnectionManager.UpdateConnection | kafka/client_async.py:1213-1217 | the connection moves to the end with the new time |
| IdleConnections.IdleConnectionManager.RemoveConnection | kafka/client_async.py:1219-1221 | the connection is gone, the others stay in order |
| IdleConnections.IdleConnectionManager.PollExpiredConnection | kafka/client_async.py:1240-1262 | ordered dictionary and linear scan give the same result; the invariant is kept |
| IdleConnections.FirstIsOldest | kafka/client_async.py:1249-1255 | in a sorted sequence the linear scan finds exactly the first entry |
| ClusterIndex.ClusterMetadata.UpdateMetadata | kafka/cluster.py:240-345 | leaders and broker entries are those the response lists, unless it is ignored |
| ClusterIndex.IndexesAgree | kafka/cluster.py:280-313 | the broker index agrees with the leaders for every broker and partition if and only if every entry naming a leader has an entry that says the same, last for its partition in the last list of its topic |
| ClusterIndex.LookupsAgree | kafka/cluster.py:139-160 | after an update the two lookups agree on every broker and partition if and only if the response meets that condition |
| ClusterIndex.DistinctIsUndisputed | kafka/cluster.py:280-313 | responses with distinct topics and partitions meet it |
| ClusterIndex.ResponseIsIndexed | kafka/cluster.py:150-160 | what the sender assumes about the cluster holds after such a response |
| ClusterIndex.RepeatedPartitionDisagrees | kafka/cluster.py:280-313 | a partition listed with two leaders stays in the first one's entry |
| ClusterIndex.DroppedPartitionDisagrees | kafka/cluster.py:280-313 | a partition that a second list of its topic drops stays in its leader's entry |

## Left out

- Sockets, selectors, authentication, metadata refresh and the rest of client polling: I/O.
- The group coordinator, admin client, metrics, configuration and request version tables.
- Forced aborts of already drained batches (`abort_incomplete_batches`) and the closing of the producer.
- The node-finding loop around a transactional request: every request that was taken out returns through a reply or a retry.
- The transactional producer's drain refusal is the `stop` parameter of the drain; the pipeline's run theorems are for a producer without a transactional id.
- After the reset-and-return path of a produce round the drained batches stay muted and unsent; no liveness is claimed.
- ExactlyOnce.SafeDelivery: when a reset is coming or a fatal error has stopped sending, failing a batch of the current producer id is no orphaning, because the id is dropped or never used again.
- SenderThread.Sender.RegisterDrained: raises at every tie, where `heapq` may get by without comparing the two, because which entries it compares is not part of this model; the runs of the pipeline have both outcomes.
- SenderThread.Sender.HandleResponse: is stated for heaps without ties, because taking a batch out rebuilds its heap; the runs of the pipeline let that comparison raise.
- What the sender thread does after a tie has raised: it logs the exception and goes on.
- TransactionOffsets.ResultsAreCounted: counts results and does not tell them apart, and `authentication_failed`, which sets results done and leaves their handlers queued, is not modelled, because connections are not.
- OrphanedBatches.OrphaningLoses: the continuation may orphan further batches, such as the others of an expiry scan under way, because the scan fails all it has found.
- Fetching.SubscriptionState.Assign: does not state the order of the assignment, which is by topic and shuffled, because nothing modelled depends on it.
- Fetching.Fetcher.ParseFetchedData: does not model errors that raise, records too large for a fetch and the high watermark, because they hand out no records.
- Fetching.Fetcher.AppendRecords: does not model `update_offsets=False`, because then the position is the caller's.
- Fetching.Fetcher.FetchedRecords: does not model exceptions deferred to the next call, because they hand out no records.
- TransactionManagement.TransactionManager.InitializeTransactions: does not state that the producer id and the sequence numbers are cleared, because the transaction machine holds neither.
- ClusterIndex.ClusterMetadata.UpdateMetadata: does not model brokers, controller, cluster id, unauthorized and internal topics, because they are copied from the response and not indexed.
- Corrupt records, deserializer errors and the exceptions that `fetched_records` defers to the next call.
- Fetch errors that raise, and out-of-range offsets without a default reset policy.
- `update_offsets=False`, leader epochs, high watermarks and the order of partitions within the assignment.
- Position tracking of message formats before v2; the read_committed filter itself is proved for all formats.
- Coordinator identities, leader epochs and metadata of committed offsets, and several consumer groups in one transaction.
- Snappy, gzip, lz4 and zstd themselves; of snappy only that decompress inverts compress is used.
- Xerial.SnappyDecode: is stated for streams on which the loop ends, because the code runs for ever on the others; streams whose lengths move the cursor before the beginning are not told apart further.
- `next_check_ms` and the poll timeouts computed from ready and expiry times.
