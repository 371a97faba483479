/**
 * The transaction manager (KIP-98) as a state machine: eight phases, a priority queue of
 * request handlers, at most one of them in flight, and three sets of partitions. Beside it
 * stand the user, who may call at any time, and the batches of the accumulator.
 *
 * The heap of (priority, sort id, handler) is a sequence in that order: the sort id makes the
 * order total, so the heap pops in exactly this order.
 */
module Transactions {
  import opened Common

  datatype Phase =
    | Uninitialized | Initializing | Ready | InTransaction
    | CommittingTransaction | AbortingTransaction | AbortableError | FatalError

  predicate TransitionValid(source: Phase, target: Phase) {
    match target
    case Initializing => source == Uninitialized
    case Ready => source == Initializing || source == CommittingTransaction || source == AbortingTransaction
    case InTransaction => source == Ready
    case CommittingTransaction => source == InTransaction
    case AbortingTransaction => source == InTransaction || source == AbortableError
    case AbortableError => source == InTransaction || source == CommittingTransaction || source == AbortableError
    case Uninitialized => false
    case FatalError => true
  }

  type Offsets = map<TopicPartition, int>

  type Commit = (TopicPartition, int)

  function Items(o: Offsets): set<Commit> {
    set tp | tp in o :: (tp, o[tp])
  }

  datatype Handler =
    | FindCoordinator
    | InitProducerId
    | AddPartitions(tps: set<TopicPartition>)
    | AddOffsets(offsets: Offsets)
    | OffsetCommit(offsets: Offsets)     // the offsets of the request; shares the result of its AddOffsets
    | EndTxn(committed: bool)
  {
    function Priority(): nat {
      match this
      case FindCoordinator => 0
      case InitProducerId => 1
      case AddPartitions(_) => 2
      case AddOffsets(_) => 2
      case OffsetCommit(_) => 2
      case EndTxn(_) => 3
    }

    /** The handler holds the result of a call of the user. */
    predicate Awaited() { InitProducerId? || AddOffsets? || OffsetCommit? || EndTxn? }
  }

  /** Offsets committed with the transaction. */
  datatype OffsetCommits = OffsetCommits(
    pending: Offsets,                    // added and not acknowledged; nothing ever clears it
    // history of the current transaction
    asked: set<Commit>,                  // by the user
    acked: set<Commit>,                  // by a broker
    refused: bool,                       // a broker refused one
    stale: set<Commit>)                  // pending when the transaction began

  datatype Txn = Txn(
    phase: Phase,
    newPartitions: set<TopicPartition>,
    pendingPartitions: set<TopicPartition>,
    partitions: set<TopicPartition>,
    started: bool,
    queue: seq<Handler>,
    inFlight: Option<Handler>,
    incomplete: multiset<TopicPartition>,   // batches appended and neither acknowledged nor failed
    undone: int,                         // results handed to the user and not done yet
    lost: int,                           // of these, the ones whose handler is gone after a reply that raised
    offsets: OffsetCommits,
    // history of the current transaction
    named: set<TopicPartition>,          // partitions the user sent to
    produced: set<TopicPartition>,       // partitions produce requests went to
    offsetsAdded: bool,
    failed: bool,                        // a batch failed
    unhandled: bool)                     // an error in a response was not handled

  datatype Problem =
    | InvalidTransition | NotInTransaction | InErrorState
    | NoSuchAttribute                    // raised for errors of responses, and for any offset not accepted
    | NoSuchKey                          // raised for an accepted offset that is not pending

  type Result = Outcome<Txn, Problem>

  function Start(): Txn {
    Txn(Uninitialized, {}, {}, {}, false, [], None, multiset{}, 0, 0,
        OffsetCommits(map[], {}, {}, false, {}), {}, {}, false, false, false)
  }

  predicate HasError(s: Txn) {
    s.phase == AbortableError || s.phase == FatalError
  }

  /** heappush: behind everything of the same or a more urgent priority. */
  function Enqueue(q: seq<Handler>, h: Handler): seq<Handler> {
    if q != [] && q[0].Priority() <= h.Priority() then [q[0]] + Enqueue(q[1..], h) else [h] + q
  }

  function Push(s: Txn, h: Handler): Txn {
    s.(queue := Enqueue(s.queue, h))
  }

  /** result.done() */
  function Finish(s: Txn, h: Handler): Txn {
    if h.Awaited() then s.(undone := s.undone - 1) else s
  }

  function TransitionTo(s: Txn, target: Phase): Result {
    if TransitionValid(s.phase, target) then Returns(s.(phase := target)) else Raises(InvalidTransition)
  }

  function ToAbortableError(s: Txn): Result {
    if s.phase == AbortingTransaction then Returns(s) else TransitionTo(s, AbortableError)
  }

  /** _add_partitions_to_transaction_handler and its enqueuing, if there are new partitions. */
  function AddNewPartitions(s: Txn): Txn {
    if s.newPartitions == {} then s
    else
      var all := s.pendingPartitions + s.newPartitions;
      Push(s.(pendingPartitions := all, newPartitions := {}), AddPartitions(all))
  }

  function CompleteTransaction(s: Txn): Result {
    var r := TransitionTo(s, Ready);
    if r.Raises? then r
    else Returns(r.value.(started := false, newPartitions := {}, pendingPartitions := {}, partitions := {},
                          produced := {}, offsetsAdded := false, failed := false))
  }

  // ----- calls of the user -------------------------------------------------------------

  function InitTransactions(s: Txn): Result {
    var r := TransitionTo(s, Initializing);
    if r.Raises? then r else Returns(Push(r.value.(undone := s.undone + 1), InitProducerId))
  }

  function BeginTransaction(s: Txn): Result {
    if HasError(s) then Raises(InErrorState)
    else
      var r := TransitionTo(s, InTransaction);
      if r.Raises? then r
      else Returns(r.value.(named := {}, unhandled := false,
        offsets := OffsetCommits(s.offsets.pending, {}, {}, false, Items(s.offsets.pending))))
  }

  /** KafkaProducer.send: maybe_add_partition_to_transaction, then the record is appended. */
  function Send(s: Txn, tp: TopicPartition): Result {
    if HasError(s) then Raises(InErrorState)
    else if s.phase != InTransaction then Raises(NotInTransaction)
    else
      var s1 := s.(named := s.named + {tp}, incomplete := s.incomplete + multiset{tp});
      if tp in s.partitions || tp in s.newPartitions || tp in s.pendingPartitions then Returns(s1)
      else Returns(s1.(newPartitions := s.newPartitions + {tp}))
  }

  function SendOffsets(s: Txn, o: Offsets): Result {
    if HasError(s) then Raises(InErrorState)
    else if s.phase != InTransaction then Raises(NotInTransaction)
    else
      var asked := s.offsets.asked + Items(o);
      Returns(Push(s.(undone := s.undone + 1, offsets := s.offsets.(asked := asked)), AddOffsets(o)))
  }

  function BeginCommit(s: Txn): Result {
    if HasError(s) then Raises(InErrorState)
    else
      var r := TransitionTo(s, CommittingTransaction);
      if r.Raises? then r else Returns(Push(AddNewPartitions(r.value.(undone := s.undone + 1)), EndTxn(true)))
  }

  function BeginAbort(s: Txn): Result {
    if s.phase != AbortableError && HasError(s) then Raises(InErrorState)
    else
      var r := TransitionTo(s, AbortingTransaction);
      if r.Raises? then r else Returns(Push(r.value.(undone := s.undone + 1, newPartitions := {}), EndTxn(false)))
  }

  // ----- the sender --------------------------------------------------------------------

  /** The handler goes out: it is in flight until on_complete or retry. */
  function Release(s: Txn): Txn
    requires s.queue != []
  {
    s.(queue := s.queue[1..], inFlight := Some(s.queue[0]))
  }

  /** An EndTxn for a transaction nothing was added to: done without a request. */
  function SkipEndTxn(s: Txn): Result
    requires s.queue != []
  {
    var s1 := Finish(s.(queue := s.queue[1..]), s.queue[0]);
    var r := if s.phase == FatalError then Returns(s1) else CompleteTransaction(s1);
    if r.Raises? || r.value.queue == [] then r else Returns(Release(r.value))
  }

  predicate Terminated(s: Txn, h: Handler) {
    HasError(s) && !(s.phase == AbortableError && h.FindCoordinator?)
  }

  function NextRequest(s: Txn): Result {
    var s1 := AddNewPartitions(s);
    if s1.queue == [] then Returns(s1)
    else
      var h := s1.queue[0];
      if h.EndTxn? && s1.incomplete != multiset{} then Returns(s1)
      else if Terminated(s1, h) then Returns(Finish(s1.(queue := s1.queue[1..]), h))
      else if h.EndTxn? && !s1.started then SkipEndTxn(s1)
      else Returns(Release(s1))
  }

  datatype Reply =
    | Success
    | TryAgain(lookup: bool)     // a retriable error, a lost connection, or no node to send to
    | Fatal                      // with the method that handles it
    | Abortable                  // with the method that handles it
    | Unhandled(abortable: bool) // either, as it is: the method is called by a name that does not exist
    | Results(results: seq<(TopicPartition, bool)>)   // of an offset commit: which offsets were accepted, in any order

  /** The answer to an offset commit: one result for each of its partitions. */
  ghost predicate AnswersFor(o: Offsets, rs: seq<(TopicPartition, bool)>) {
    && (forall i, j :: 0 <= i < j < |rs| ==> rs[i].0 != rs[j].0)
    && (forall i :: 0 <= i < |rs| ==> rs[i].0 in o)
    && (forall tp :: tp in o ==> (tp, true) in rs || (tp, false) in rs)
  }

  /** A reply that its handler can get: answers to AddPartitions and OffsetCommit cover their partitions. */
  ghost predicate Answerable(h: Handler, r: Reply) {
    && (r.Abortable? || r == Unhandled(true) ==> !h.InitProducerId? && !h.EndTxn? && !h.OffsetCommit?)
    && (r.Success? ==> !h.OffsetCommit?)
    && (r.Results? ==> h.OffsetCommit? && AnswersFor(h.offsets, r.results))
  }

  /** What is left of the pending offsets when the results have been looked at, or when that raised. */
  datatype Clearing = Clearing(left: Offsets, problem: Option<Problem>)

  function Clear(pending: Offsets, rs: seq<(TopicPartition, bool)>): Clearing {
    if rs == [] then Clearing(pending, None)
    else if !rs[0].1 then Clearing(pending, Some(NoSuchAttribute))
    else if rs[0].0 !in pending then Clearing(pending, Some(NoSuchKey))
    else Clear(pending - {rs[0].0}, rs[1..])
  }

  function Accepted(o: Offsets, rs: seq<(TopicPartition, bool)>): set<Commit> {
    set tp | tp in o && (tp, true) in rs :: (tp, o[tp])
  }

  predicate Refuses(rs: seq<(TopicPartition, bool)>) {
    exists i :: 0 <= i < |rs| && !rs[i].1
  }

  /** The response of an offset commit has been looked at as far as it goes. */
  function Recorded(s: Txn, o: Offsets, rs: seq<(TopicPartition, bool)>): Txn {
    s.(offsets := s.offsets.(pending := Clear(s.offsets.pending, rs).left,
                             acked := s.offsets.acked + Accepted(o, rs),
                             refused := s.offsets.refused || Refuses(rs)))
  }

  function Succeed(s: Txn, h: Handler): Result {
    match h
    case FindCoordinator => Returns(s)
    case InitProducerId =>
      var r := TransitionTo(s, Ready);
      if r.Raises? then r else Returns(Finish(r.value, h))
    case AddPartitions(tps) =>
      Returns(s.(pendingPartitions := s.pendingPartitions - tps, partitions := s.partitions + tps, started := true))
    case AddOffsets(o) =>
      var all := s.offsets.pending + o;
      Returns(Push(s.(started := true, offsetsAdded := true, offsets := s.offsets.(pending := all)), OffsetCommit(all)))
    case OffsetCommit(_) => Returns(Finish(s, h))
    case EndTxn(_) =>
      var r := CompleteTransaction(s);
      if r.Raises? then r else Returns(Finish(r.value, h))
  }

  /** on_complete, or retry; the handler is no longer in flight. */
  function Complete(s: Txn, h: Handler, reply: Reply): Result
    requires reply.Results? ==> h.OffsetCommit?
  {
    match reply
    case Success => Succeed(s, h)
    case TryAgain(lookup) => Returns(Push(if lookup then Push(s, FindCoordinator) else s, h))
    case Fatal => Returns(Finish(s.(phase := FatalError), h))
    case Abortable =>
      var s1 := if h.AddPartitions? then s.(pendingPartitions := s.pendingPartitions - h.tps) else s;
      var r := ToAbortableError(s1);
      if r.Raises? then r else Returns(Finish(r.value, h))
    case Unhandled(_) => Raises(NoSuchAttribute)
    case Results(rs) =>
      var c := Clear(s.offsets.pending, rs);
      if c.problem.Some? then Raises(c.problem.value) else Returns(Finish(Recorded(s, h.offsets, rs), h))
  }

  // ----- steps -------------------------------------------------------------------------

  datatype Event =
    | Init | Begin | SendRecord(tp: TopicPartition) | SendOffsetsToTransaction(offsets: Offsets)
    | Commit | Abort
    | Next                                  // the sender asks for the next request
    | Respond(reply: Reply)
    | Produce(tp: TopicPartition)           // a produce request for the partition goes out
    | BatchAcked(tp: TopicPartition)
    | BatchFailed(tp: TopicPartition, fatal: bool)
    | BatchDropped(tp: TopicPartition)      // abort_undrained_batches, abort_batches
    | Trouble(fatal: bool)                  // any other error reported by the sender

  /** The request that commits the transaction is queued or in flight. */
  predicate CommitPending(s: Txn) {
    EndTxn(true) in s.queue || s.inFlight == Some(EndTxn(true))
  }

  /**
   * When a step can be taken; a careful user does not abort a transaction while the request
   * that commits it is pending.
   */
  ghost predicate Enabled(careful: bool, s: Txn, e: Event) {
    match e
    case Init => true
    case Begin => true
    case SendRecord(_) => true
    case SendOffsetsToTransaction(_) => true
    case Commit => true
    case Abort => careful ==> BeginAbort(s).Raises? || !CommitPending(s)
    case Next => s.inFlight.None?                                             // has_in_flight_transactional_request
    case Respond(r) => s.inFlight.Some? && Answerable(s.inFlight.value, r)
    case Produce(tp) => tp in s.incomplete && tp in s.partitions
      && s.phase != FatalError   // is_send_to_partition_allowed
    case BatchAcked(tp) => tp in s.incomplete && tp in s.produced
    case BatchFailed(tp, _) => tp in s.incomplete
    case BatchDropped(tp) =>
      tp in s.incomplete && (s.phase == AbortableError || s.phase == AbortingTransaction || s.phase == FatalError)
    case Trouble(_) => true
  }

  function Fail(s: Txn, fatal: bool): Result {
    if fatal then TransitionTo(s, FatalError) else ToAbortableError(s)
  }

  /** A reply is one to the handler in flight. */
  predicate Fits(s: Txn, e: Event) {
    e.Respond? ==> s.inFlight.Some? && (e.reply.Results? ==> s.inFlight.value.OffsetCommit?)
  }

  function Attempt(s: Txn, e: Event): Result
    requires Fits(s, e)
  {
    match e
    case Init => InitTransactions(s)
    case Begin => BeginTransaction(s)
    case SendRecord(tp) => Send(s, tp)
    case SendOffsetsToTransaction(o) => SendOffsets(s, o)
    case Commit => BeginCommit(s)
    case Abort => BeginAbort(s)
    case Next => NextRequest(s)
    case Respond(r) => Complete(s.(inFlight := None), s.inFlight.value, r)
    case Produce(tp) => Returns(s.(produced := s.produced + {tp}))
    case BatchAcked(tp) => Returns(s.(incomplete := s.incomplete - multiset{tp}))
    case BatchFailed(tp, fatal) =>
      var r := Fail(s.(failed := true), fatal);
      if r.Raises? then r else Returns(r.value.(incomplete := s.incomplete - multiset{tp}))
    case BatchDropped(tp) => Returns(s.(incomplete := s.incomplete - multiset{tp}, failed := true))
    case Trouble(fatal) => Fail(s, fatal)
  }

  /** The handler in flight is gone, and its result stays undone. */
  function Stranded(s: Txn): Txn
    requires s.inFlight.Some?
  {
    s.(inFlight := None, lost := if s.inFlight.value.Awaited() then s.lost + 1 else s.lost)
  }

  /** What a reply has done when it raises. */
  function LeftBehind(s: Txn, h: Handler, r: Reply): Txn
    requires r.Results? ==> h.OffsetCommit?
  {
    match r
    case Results(rs) => Recorded(s, h.offsets, rs)
    case Abortable => if h.AddPartitions? then s.(pendingPartitions := s.pendingPartitions - h.tps) else s
    case Unhandled(abortable) =>
      var s1 := s.(unhandled := true);
      if abortable && h.AddPartitions? then s1.(pendingPartitions := s.pendingPartitions - h.tps) else s1
    case _ => s
  }

  /** What a step leaves that raises: a call nothing; a skipped EndTxn and the handler of a reply are gone. */
  function AfterRaise(s: Txn, e: Event): Txn
    requires Fits(s, e)
  {
    match e
    case Next =>
      var s1 := AddNewPartitions(s);
      if s1.queue == [] then s1 else Finish(s1.(queue := s1.queue[1..]), s1.queue[0])
    case Respond(r) => LeftBehind(Stranded(s), s.inFlight.value, r)
    case _ => s
  }

  function Step(s: Txn, e: Event): Txn
    requires Fits(s, e)
  {
    var r := Attempt(s, e);
    if r.Returns? then r.value else AfterRaise(s, e)
  }

  ghost predicate ValidRun(careful: bool, s: Txn, es: seq<Event>)
    decreases es
  {
    es == [] || (Enabled(careful, s, es[0]) && ValidRun(careful, Step(s, es[0]), es[1..]))
  }

  ghost function Run(careful: bool, s: Txn, es: seq<Event>): Txn
    requires ValidRun(careful, s, es)
    decreases es
  {
    if es == [] then s else Run(careful, Step(s, es[0]), es[1..])
  }

  ghost predicate Reachable(careful: bool, s: Txn) {
    exists es :: ValidRun(careful, Start(), es) && Run(careful, Start(), es) == s
  }

  lemma {:induction false} ExtendRun(careful: bool, s: Txn, es: seq<Event>, e: Event)
    requires ValidRun(careful, s, es) && Enabled(careful, Run(careful, s, es), e)
    ensures ValidRun(careful, s, es + [e]) && Run(careful, s, es + [e]) == Step(Run(careful, s, es), e)
    decreases es
  {
    if es == [] {
      assert es + [e] == [e];
      assert [e][1..] == [];
    } else {
      assert (es + [e])[1..] == es[1..] + [e];
      ExtendRun(careful, Step(s, es[0]), es[1..], e);
    }
  }

  lemma Reach(careful: bool, s: Txn, e: Event, s1: Txn)
    requires Reachable(careful, s) && Enabled(careful, s, e) && Step(s, e) == s1
    ensures Reachable(careful, s1)
  {
    var es :| ValidRun(careful, Start(), es) && Run(careful, Start(), es) == s;
    ExtendRun(careful, Start(), es, e);
  }
}
