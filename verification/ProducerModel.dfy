/**
 * The producer pipeline as a state machine: the batches of the RecordAccumulator, the
 * in-flight bookkeeping of the Sender and the producer id and sequence numbers of the
 * TransactionManager (idempotent, not transactional).
 *
 * A ProducerBatch object is a number: its index in `batches`, which is also its rank in
 * creation order. Deques, heaps and sets hold those numbers, so a batch reachable from
 * several of them is one object, as in the program. The per-partition in-flight heaps are
 * one set: a batch knows its partition and its creation time. Times are milliseconds.
 */
module ProducerModel {
  import opened Common

  const MAX_SEQUENCE: int := 2147483647
  const SEQUENCE_SPACE: int := 2147483648

  /** Producer id, epoch and base sequence written into a batch. */
  datatype Stamp = Stamp(pid: nat, epoch: nat, sequence: nat)

  datatype ProducerIdAndEpoch = ProducerIdAndEpoch(pid: nat, epoch: nat)

  datatype FinalState = Failed | Succeeded

  datatype Batch = Batch(
    tp: TopicPartition,
    created: int,
    records: seq<int>,          // payloads, opaque to the pipeline
    openSize: nat,              // bytes in the builder
    closedSize: nat,            // bytes after close() has built the buffer
    closed: bool,
    inRetry: bool,
    attempts: nat,
    lastAttempt: int,
    stamp: Option<Stamp>,
    final: Option<FinalState>)
  {
    function Size(): nat { if closed then closedSize else openSize }

    predicate Expired(deliveryTimeout: nat, now: int) { deliveryTimeout <= now - created }

    predicate BackingOff(backoff: nat, now: int) { attempts > 0 && lastAttempt + backoff > now }
  }

  datatype Config = Config(
    guaranteeMessageOrder: bool,
    idempotent: bool,           // a TransactionManager is configured
    retries: Option<nat>,       // None: without limit
    retryBackoff: nat,
    linger: nat,
    deliveryTimeout: nat,
    batchSize: nat)

  /** What the producer can tell about the error of a produce response. */
  datatype ProduceError = ProduceError(retriable: bool, outOfOrderSequence: bool, fatal: bool)

  const TIMEOUT_ERROR := ProduceError(false, false, false)

  datatype State = State(
    // RecordAccumulator
    batches: seq<Batch>,
    queues: map<TopicPartition, seq<nat>>,
    muted: set<TopicPartition>,
    incomplete: set<nat>,
    // Sender
    inFlight: set<nat>,
    drained: set<nat>,          // drained in this round, request not handed over yet
    awaiting: set<nat>,         // request sent, no response or error delivered yet
    expired: set<nat>,          // taken out by an expiry scan, not failed yet
    // TransactionManager
    producerId: Option<ProducerIdAndEpoch>,
    sequences: map<TopicPartition, nat>,
    fatal: bool,
    resetDue: bool,             // a resend expired: this round ends with the producer id dropped
    // history
    completed: seq<nat>,        // batches whose produce future was completed, in order
    sends: seq<nat>,            // requests handed to the network, in order
    acks: seq<nat>,             // positive produce responses, in order
    usedPids: set<nat>,         // producer ids handed out so far
    user: map<TopicPartition, seq<int>>)   // what the application appended

  datatype Problem =
    | ClosedBatchStamped        // set_producer_state on a closed batch
    | SucceededTwice            // done() on a SUCCEEDED batch
    | NoSequence                // increment_sequence_number on an unknown partition
    | NotMuted                  // muted.remove of an absent partition
    | InFlightAlreadyFinal      // expiry scan finds a completed batch in a heap
    | HeapTie                   // heapq compares two batches, which have no order

  type Result = Outcome<State, Problem>

  function Queue(s: State, tp: TopicPartition): seq<nat> {
    if tp in s.queues then s.queues[tp] else []
  }

  function UserRecords(s: State, tp: TopicPartition): seq<int> {
    if tp in s.user then s.user[tp] else []
  }

  function SequenceNumber(s: State, tp: TopicPartition): nat {
    if tp in s.sequences then s.sequences[tp] else 0
  }

  function Initial(): State {
    State([], map[], {}, {}, {}, {}, {}, {}, None, map[], false, false, [], [], [], {}, map[])
  }

  // ----- RecordAccumulator.append ------------------------------------------------------

  /** The batch a record joins, if the deque's last batch takes it. `room` is the builder's answer. */
  predicate JoinsLast(s: State, tp: TopicPartition, room: bool) {
    var q := Queue(s, tp);
    q != [] && q[|q| - 1] < |s.batches| && !s.batches[q[|q| - 1]].closed && room
  }

  function AppendRecord(s: State, tp: TopicPartition, rec: int, openSize: nat, closedSize: nat,
          room: bool, now: int): State
  {
    var q := Queue(s, tp);
    var s' := s.(user := s.user[tp := UserRecords(s, tp) + [rec]]);
    if JoinsLast(s, tp, room) then
      var i := q[|q| - 1];
      var b := s.batches[i];
      s'.(batches := s.batches[i := b.(records := b.records + [rec], openSize := openSize, closedSize := closedSize)])
    else
      var b := Batch(tp, now, [rec], openSize, closedSize, false, false, 0, now, None, None);
      s'.(batches := s.batches + [b],
          queues := s.queues[tp := q + [|s.batches|]],
          incomplete := s.incomplete + {|s.batches|})
  }

  // ----- drain -------------------------------------------------------------------------

  /** _should_stop_drain_batches_for_partition, for a producer without a transactional id. */
  predicate MaySend(c: Config, s: State) {
    c.idempotent ==> !s.fatal && s.producerId.Some?
  }

  predicate Drainable(c: Config, s: State, tp: TopicPartition, now: int) {
    && tp !in s.muted
    && Queue(s, tp) != []
    && Queue(s, tp)[0] < |s.batches|
    && !s.batches[Queue(s, tp)[0]].BackingOff(c.retryBackoff, now)
  }

  /** The head batch with producer state set (unless it is a retry) and closed. */
  function Sealed(c: Config, s: State, b: Batch): Batch
    requires MaySend(c, s)
  {
    if c.idempotent && !b.inRetry then
      b.(stamp := Some(Stamp(s.producerId.value.pid, s.producerId.value.epoch, SequenceNumber(s, b.tp))),
        closed := true)
    else
      b.(closed := true)
  }

  /** Reading the defaultdict of sequence numbers creates the entry. */
  function TouchSequence(c: Config, s: State, b: Batch): map<TopicPartition, nat> {
    if c.idempotent && !b.inRetry then s.sequences[b.tp := SequenceNumber(s, b.tp)] else s.sequences
  }

  function DrainHead(c: Config, s: State, tp: TopicPartition, now: int): Result
    requires Drainable(c, s, tp, now) && MaySend(c, s)
  {
    var i := Queue(s, tp)[0];
    var b := s.batches[i];
    if c.idempotent && !b.inRetry && b.closed then Raises(ClosedBatchStamped) else
      Returns(s.(
        batches := s.batches[i := Sealed(c, s, b)],
        sequences := TouchSequence(c, s, b),
        queues := s.queues[tp := Queue(s, tp)[1..]],
        inFlight := s.inFlight + {i},
        drained := s.drained + {i},
        muted := if c.guaranteeMessageOrder then s.muted + {tp} else s.muted))
  }

  // ----- completion --------------------------------------------------------------------

  /** ProducerBatch.done followed by the removals of the two callers. */
  function Done(s: State, i: nat, f: FinalState): Result
    requires i < |s.batches|
  {
    match s.batches[i].final
    case None =>
      Returns(s.(batches := s.batches[i := s.batches[i].(final := Some(f))],
                 inFlight := s.inFlight - {i},
                 incomplete := s.incomplete - {i},
                 completed := s.completed + [i]))
    case Some(Succeeded) => Raises(SucceededTwice)
    case Some(Failed) => Returns(s)
  }

  function ResetProducerId(s: State): State {
    s.(producerId := None, sequences := map[])
  }

  predicate Match(s: State, b: Batch) {
    match (s.producerId, b.stamp)
    case (Some(p), Some(st)) => p.pid == st.pid && p.epoch == st.epoch
    case (None, None) => true
    case _ => false
  }

  /** TransactionManager.has_producer_id(batch.producer_id) */
  predicate SamePid(s: State, b: Batch) {
    match (s.producerId, b.stamp)
    case (Some(p), Some(st)) => p.pid == st.pid
    case (None, None) => true
    case _ => false
  }

  /** What _fail_batch tells the TransactionManager. */
  function NoteFailure(c: Config, s: State, i: nat, err: ProduceError): State
    requires i < |s.batches|
  {
    if !c.idempotent then s
    else if err.outOfOrderSequence && SamePid(s, s.batches[i]) then ResetProducerId(s)
    else if err.fatal then s.(fatal := true)
    else s
  }

  function FailBatch(c: Config, s: State, i: nat, err: ProduceError): Result
    requires i < |s.batches|
  {
    Done(NoteFailure(c, s, i, err), i, Failed)
  }

  predicate CanRetry(c: Config, b: Batch, err: ProduceError, now: int) {
    && !b.Expired(c.deliveryTimeout, now)
    && (c.retries.Some? ==> b.attempts < c.retries.value)
    && b.final.None?
    && err.retriable
  }

  function Reenqueue(s: State, i: nat, now: int): State
    requires i < |s.batches|
  {
    var b := s.batches[i];
    s.(batches := s.batches[i := b.(inRetry := true, attempts := b.attempts + 1, lastAttempt := now)],
       queues := s.queues[b.tp := [i] + Queue(s, b.tp)],
       inFlight := s.inFlight - {i})
  }

  /** TransactionManager.increment_sequence_number, for a partition with a sequence number. */
  function IncrementedSequence(base: nat, increment: nat): nat {
    if base > MAX_SEQUENCE - increment then increment - (MAX_SEQUENCE - base) - 1 else base + increment
  }

  function CountAck(c: Config, s: State, i: nat): Result
    requires i < |s.batches|
  {
    var b := s.batches[i];
    if c.idempotent && Match(s, b) then
      if b.tp !in s.sequences then Raises(NoSequence)
      else
        Returns(s.(sequences := s.sequences[b.tp := IncrementedSequence(s.sequences[b.tp], |b.records|)]))
    else Returns(s)
  }

  function Unmute(c: Config, s: State, i: nat): Result
    requires i < |s.batches|
  {
    if !c.guaranteeMessageOrder then Returns(s)
    else if s.batches[i].tp in s.muted then Returns(s.(muted := s.muted - {s.batches[i].tp}))
    else Raises(NotMuted)
  }

  /** The error branch of _complete_batch: retry, or fail. */
  function RetryOrFail(c: Config, s: State, i: nat, err: ProduceError, now: int): Result
    requires i < |s.batches|
  {
    if CanRetry(c, s.batches[i], err, now)
      && (c.idempotent ==> Match(s, s.batches[i])) then Returns(Reenqueue(s, i, now))
    else FailBatch(c, s, i, err)
  }

  /** The success branch of _complete_batch. */
  function Succeed(c: Config, s: State, i: nat): Result
    requires i < |s.batches|
  {
    var d := Done(s.(acks := s.acks + [i]), i, Succeeded);
    if d.Raises? then d else CountAck(c, d.value, i)
  }

  /** Sender._complete_batch; the response also ends the request's wait. */
  function CompleteBatch(c: Config, s: State, i: nat, err: Option<ProduceError>, now: int): Result
    requires i < |s.batches|
  {
    var s0 := s.(awaiting := s.awaiting - {i});
    var r := if err.Some? then RetryOrFail(c, s0, i, err.value, now) else Succeed(c, s0, i);
    if r.Raises? then r else Unmute(c, r.value, i)
  }

  // ----- steps -------------------------------------------------------------------------

  datatype Event =
    | Append(tp: TopicPartition, rec: int, openSize: nat, closedSize: nat, room: bool, now: int)
    | Drain(tp: TopicPartition, now: int)
    | Send(id: nat)
    | ExpireQueued(tp: TopicPartition, now: int)
    | ExpireInFlight(id: nat, now: int)
    | FailExpired(id: nat)
    | Compare(id: nat, other: nat)        // a heap, pushed to or popped from, compares two batches
    | Respond(id: nat, err: Option<ProduceError>, now: int)
    | ResetPid                            // reset-and-return: the drained batches are not sent
    | NewPid(pid: nat, epoch: nat)

  /** Two batches in one heap were created at the same time: their heap entries differ in the batch only. */
  predicate Tied(s: State, i: nat, j: nat) {
    && i != j && i in s.inFlight && j in s.inFlight && i < |s.batches| && j < |s.batches|
    && s.batches[i].tp == s.batches[j].tp && s.batches[i].created == s.batches[j].created
  }

  /** When the code, or its environment, can take a step. */
  predicate Enabled(c: Config, s: State, e: Event) {
    match e
    case Append(tp, _, _, _, room, now) =>
      && (forall i :: 0 <= i < |s.batches| ==> s.batches[i].created <= now)      // monotone clock
      && (JoinsLast(s, tp, room) ==>
            |s.batches[Queue(s, tp)[|Queue(s, tp)| - 1]].records| < MAX_SEQUENCE)   // int32 record count
    case Drain(tp, now) => Drainable(c, s, tp, now) && MaySend(c, s) && s.expired == {} && !s.resetDue
    case Send(i) => i in s.drained && !s.resetDue
    case ExpireQueued(tp, now) =>
      Queue(s, tp) != [] && Queue(s, tp)[0] < |s.batches| && s.batches[Queue(s, tp)[0]].Expired(c.deliveryTimeout, now)
    case ExpireInFlight(i, now) => i in s.inFlight && i < |s.batches| && s.batches[i].Expired(c.deliveryTimeout, now)
    case FailExpired(i) => i in s.expired && i < |s.batches|
    case Compare(i, j) => Tied(s, i, j)   // others compare by their times
    case Respond(i, _, _) => i in s.awaiting && i < |s.batches| && s.expired == {} && !s.resetDue
    case ResetPid => c.idempotent && s.resetDue && s.expired == {}
    case NewPid(pid, _) => c.idempotent && s.producerId.None? && pid !in s.usedPids && !s.resetDue
  }

  /** Whether the round has to end with a reset once batch i is found expired. */
  predicate ResetDue(c: Config, s: State, i: nat)
    requires i < |s.batches|
  {
    s.resetDue || (c.idempotent && s.batches[i].inRetry)
  }

  function Step(c: Config, s: State, e: Event): Result
    requires Enabled(c, s, e)
  {
    match e
    case Append(tp, rec, openSize, closedSize, room,
      now) => Returns(AppendRecord(s, tp, rec, openSize, closedSize, room, now))
    case Drain(tp, now) => DrainHead(c, s, tp, now)
    case Send(i) => Returns(s.(drained := s.drained - {i}, awaiting := s.awaiting + {i}, sends := s.sends + [i]))
    case ExpireQueued(tp, _) =>
      var i := Queue(s, tp)[0];
      Returns(s.(queues := s.queues[tp := Queue(s, tp)[1..]],
                 batches := s.batches[i := s.batches[i].(closed := true)],
                 expired := s.expired + {i}, resetDue := ResetDue(c, s, i)))
    case ExpireInFlight(i, _) =>
      if s.batches[i].final.Some? then Raises(InFlightAlreadyFinal)
      else Returns(s.(inFlight := s.inFlight - {i}, expired := s.expired + {i}, resetDue := ResetDue(c, s, i)))
    case Compare(_, _) => Raises(HeapTie)
    case FailExpired(i) => FailBatch(c, s.(expired := s.expired - {i}), i, TIMEOUT_ERROR)
    case Respond(i, err, now) => CompleteBatch(c, s, i, err, now)
    case ResetPid => Returns(ResetProducerId(s).(drained := {}, resetDue := false))
    case NewPid(pid, epoch) => Returns(s.(producerId := Some(ProducerIdAndEpoch(pid, epoch)),
      usedPids := s.usedPids + {pid}))
  }

  /** Every event of the run is enabled when its turn comes; a raise ends the run. */
  predicate ValidRun(c: Config, s: State, es: seq<Event>)
    decreases es
  {
    es == [] || (Enabled(c, s, es[0]) && (Step(c, s, es[0]).Returns? ==> ValidRun(c, Step(c, s, es[0]).value, es[1..])))
  }

  function Run(c: Config, s: State, es: seq<Event>): Result
    requires ValidRun(c, s, es)
    decreases es
  {
    if es == [] then Returns(s)
    else
      var r := Step(c, s, es[0]);
      if r.Raises? then r else Run(c, r.value, es[1..])
  }
}
