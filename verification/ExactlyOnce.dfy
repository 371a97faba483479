/**
 * The idempotent producer against a broker that appends a batch whose sequence is the
 * expected one and acknowledges an exact resend without appending. The network may lose,
 * delay and repeat requests and lose replies.
 */
module ExactlyOnce {
  import opened Common
  import opened ProducerModel
  import opened ProducerInvariants
  import opened ProducerSequences
  import opened ProducerRuns
  import opened ProducerHistory
  import opened ProducerRounds

  /** What a broker remembers of one producer id on one partition: the last batch appended. */
  datatype Tail = Tail(sequence: nat, count: nat)

  type Tails = map<(TopicPartition, nat), Tail>

  datatype World = World(
    producer: State,
    logs: map<TopicPartition, seq<nat>>,               // batches appended, in order
    tails: Tails,
    replied: set<nat>,                                 // batches a positive reply was sent for
    clock: Clock)

  function Log(w: World, tp: TopicPartition): seq<nat> {
    if tp in w.logs then w.logs[tp] else []
  }

  function TailAt(tails: Tails, tp: TopicPartition, pid: nat): Option<Tail> {
    if (tp, pid) in tails then Some(tails[(tp, pid)]) else None
  }

  function Start(): World {
    World(Initial(), map[], map[], {}, Clock(0, Sending))
  }

  function NextSequence(t: Option<Tail>): nat {
    match t
    case Some(tail) => (tail.sequence + tail.count) % SEQUENCE_SPACE
    case None => 0
  }

  /** The sequence the broker expects next of a producer id on a partition. */
  function Expected(w: World, tp: TopicPartition, pid: nat): nat {
    NextSequence(TailAt(w.tails, tp, pid))
  }

  function TailOf(b: Batch): Tail
    requires b.stamp.Some?
  {
    Tail(b.stamp.value.sequence, |b.records|)
  }

  /** The broker handles one copy of the produce request for batch i. */
  function Handle(w: World, i: nat): World
    requires i < |w.producer.batches| && w.producer.batches[i].stamp.Some?
  {
    var b := w.producer.batches[i];
    var pid := b.stamp.value.pid;
    if b.stamp.value.sequence == Expected(w, b.tp, pid) then
      w.(logs := w.logs[b.tp := Log(w, b.tp) + [i]], tails := w.tails[(b.tp, pid) := TailOf(b)],
        replied := w.replied + {i})
    else if TailAt(w.tails, b.tp, pid) == Some(TailOf(b)) then w.(replied := w.replied + {i})
    else w
  }

  datatype WorldEvent =
    | Client(e: Event)
    | Deliver(id: nat)
    | Round(now: int)         // the sender begins a round
    | Scan                    // it has drained, and begins its scans
    | Finish                  // the scans are over and no reset is due

  ghost predicate Possible(c: Config, w: World, we: WorldEvent) {
    match we
    case Client(e) =>
      && Enabled(c, w.producer, e) && OnTime(w.clock, e) && (e.Respond? && e.err.None? ==> e.id in w.replied)
      && (e.ResetPid? ==> ScanDone(c, w.producer, w.clock))
    case Deliver(i) => i in w.producer.sends && i < |w.producer.batches| && w.producer.batches[i].stamp.Some?
    case Round(now) => RoundStarts(w.producer, w.clock, now)
    case Scan => w.clock.phase.Draining?
    case Finish => ScanEnds(c, w.producer, w.clock)
  }

  ghost function WorldStep(c: Config, w: World, we: WorldEvent): World
    requires Possible(c, w, we)
  {
    match we
    case Client(e) =>
      var r := Step(c, w.producer, e);
      if r.Returns? then w.(producer := r.value, clock := Ticked(w.clock, e)) else w
    case Deliver(i) => Handle(w, i)
    case Round(now) => w.(clock := RoundBegun(now))
    case Scan => w.(clock := ScanBegun(w.clock))
    case Finish => w.(clock := ScanEnded(w.clock))
  }

  ghost predicate PossibleRun(c: Config, w: World, es: seq<WorldEvent>)
    decreases es
  {
    es == [] || (Possible(c, w, es[0]) && PossibleRun(c, WorldStep(c, w, es[0]), es[1..]))
  }

  ghost function WorldRun(c: Config, w: World, es: seq<WorldEvent>): World
    requires PossibleRun(c, w, es)
    decreases es
  {
    if es == [] then w else WorldRun(c, WorldStep(c, w, es[0]), es[1..])
  }

  // ----- the runs the guarantee is for -------------------------------------------------

  /** How many records of producer id pid are among the first k batches of a log. */
  function Written(bs: seq<Batch>, log: seq<nat>, pid: nat, k: nat): nat
    requires k <= |log|
  {
    if k == 0 then 0
    else Written(bs, log, pid, k - 1) + if PidOf(bs, log[k - 1]) == Some(pid) then |bs[log[k - 1]].records| else 0
  }

  function PidOf(bs: seq<Batch>, i: nat): Option<nat> {
    if i < |bs| && bs[i].stamp.Some? then Some(bs[i].stamp.value.pid) else None
  }

  /** The producer id will be dropped before anything drained from now on is sent. */
  ghost predicate ResetComing(c: Config, w: World) {
    Pressing(c, w.producer, w.clock)
  }

  /**
   * The step fails a batch that carries the current producer id and sequence, and the producer
   * goes on with both: no reset is coming and sending is not stopped.
   */
  ghost predicate Orphans(c: Config, w: World, e: Event)
    requires Possible(c, w, Client(e))
  {
    var s, w' := w.producer, WorldStep(c, w, Client(e));
    && (e.Respond? || e.FailExpired?) && e.id < |s.batches| && e.id < |w'.producer.batches|
    && s.batches[e.id].final.None? && w'.producer.batches[e.id].final == Some(Failed)
    && w'.producer.batches[e.id].stamp.Some? && Match(w'.producer, w'.producer.batches[e.id])
    && !w'.producer.fatal && !ResetComing(c, w')
  }

  /** Since the first k batches of the log producer id pid has written a multiple of 2^31 records. */
  predicate ComesRound(bs: seq<Batch>, log: seq<nat>, pid: nat, k: nat)
    requires k <= |log|
  {
    (Written(bs, log, pid, |log|) - Written(bs, log, pid, k)) % SEQUENCE_SPACE == 0
  }

  /**
   * No batch is orphaned; and a copy delayed in the network is not delivered when its producer
   * id has since written just 2^31 records to the partition, or a multiple of that.
   */
  ghost predicate Careful(c: Config, w: World, we: WorldEvent)
    requires Possible(c, w, we)
  {
    match we
    case Client(e) => !Orphans(c, w, e)
    case Deliver(i) =>
      var bs, log := w.producer.batches, Log(w, w.producer.batches[i].tp);
      var pid := bs[i].stamp.value.pid;
      forall k :: 0 <= k < |log| && log[k] == i ==> !ComesRound(bs, log, pid, k)
    case _ => true
  }

  ghost predicate CarefulRun(c: Config, w: World, es: seq<WorldEvent>)
    requires PossibleRun(c, w, es)
    decreases es
  {
    es == [] || (Careful(c, w, es[0]) && CarefulRun(c, WorldStep(c, w, es[0]), es[1..]))
  }

  // ----- the invariant -----------------------------------------------------------------

  predicate Stamped(bs: seq<Batch>, tp: TopicPartition, j: nat) {
    j < |bs| && bs[j].tp == tp && bs[j].stamp.Some?
  }

  /** Batch k of the log carries the number of records its producer id wrote before it. */
  ghost predicate EntryOk(bs: seq<Batch>, log: seq<nat>, tp: TopicPartition, k: nat)
    requires k < |log|
  {
    Stamped(bs, tp, log[k])
      && bs[log[k]].stamp.value.sequence == Written(bs, log, bs[log[k]].stamp.value.pid, k) % SEQUENCE_SPACE
  }

  ghost predicate EntriesOk(bs: seq<Batch>, log: seq<nat>, tp: TopicPartition) {
    Distinct(log) && forall k {:trigger EntryOk(bs, log, tp, k)} :: 0 <= k < |log| ==> EntryOk(bs, log, tp, k)
  }

  /** A stamped batch that can arrive and that the log does not hold. */
  predicate Missing(bs: seq<Batch>, log: seq<nat>, live: set<nat>, tp: TopicPartition, j: nat) {
    Stamped(bs, tp, j) && j in live && j !in log
  }

  predicate SamePidIn(bs: seq<Batch>, i: nat, j: nat) {
    PidOf(bs, i) == PidOf(bs, j)
  }

  /** A missing batch is the only one of its producer id, and carries the sequence expected next. */
  ghost predicate MissingOk(bs: seq<Batch>, log: seq<nat>, live: set<nat>, tp: TopicPartition) {
    && (forall j: nat {:trigger Missing(bs, log, live, tp, j)} :: Missing(bs, log, live, tp, j) ==>
          bs[j].stamp.value.sequence == Written(bs, log, bs[j].stamp.value.pid, |log|) % SEQUENCE_SPACE)
    && (forall i: nat, j: nat {:trigger Missing(bs, log, live, tp, i), Missing(bs, log, live, tp, j)} ::
          Missing(bs, log, live, tp, i) && Missing(bs, log, live, tp, j) && SamePidIn(bs, i, j) ==> i == j)
  }

  /** The last batch of a producer id among the first k of a log. */
  function LastUnder(bs: seq<Batch>, log: seq<nat>, pid: nat, k: nat): Option<nat>
    requires k <= |log|
  {
    if k == 0 then None
    else if PidOf(bs, log[k - 1]) == Some(pid) then Some(log[k - 1])
    else LastUnder(bs, log, pid, k - 1)
  }

  /** The broker remembers the end of the log, for every producer id. */
  ghost predicate TailOk(bs: seq<Batch>, log: seq<nat>, t: Option<Tail>, pid: nat) {
    match LastUnder(bs, log, pid, |log|)
    case None => t.None?
    case Some(i) => i < |bs| && bs[i].stamp.Some? && t == Some(TailOf(bs[i]))
  }

  ghost predicate TailsOk(bs: seq<Batch>, log: seq<nat>, tails: Tails, tp: TopicPartition) {
    forall pid: nat {:trigger TailAt(tails, tp, pid)} :: TailOk(bs, log, TailAt(tails, tp, pid), pid)
  }

  /** What was replied to or acknowledged is in the log. */
  ghost predicate RepliesOk(bs: seq<Batch>, log: seq<nat>, replied: set<nat>, tp: TopicPartition) {
    forall i: nat :: i < |bs| && bs[i].tp == tp && (i in replied || bs[i].final == Some(Succeeded)) ==> i in log
  }

  /** Nothing younger precedes an acknowledged batch. */
  ghost predicate AckOrder(bs: seq<Batch>, log: seq<nat>) {
    forall a, b :: 0 <= a < |log| && 0 <= b < |log| && log[a] < log[b]
      && log[a] < |bs| && bs[log[a]].final == Some(Succeeded)
      ==> a < b
  }

  predicate Under(bs: seq<Batch>, tp: TopicPartition, pid: nat, j: nat) {
    Stamped(bs, tp, j) && bs[j].stamp.value.pid == pid
  }

  /** All batches of the current producer id are acknowledged, and its sequence number is the expected one. */
  ghost predicate Settled(s: State, log: seq<nat>, tp: TopicPartition, pid: nat) {
    && (forall j: nat {:trigger Under(s.batches, tp, pid, j)} :: Under(s.batches, tp, pid, j) ==>
          s.batches[j].final == Some(Succeeded))
    && SequenceNumber(s, tp) == Written(s.batches, log, pid, |log|) % SEQUENCE_SPACE
  }

  /** All but u are acknowledged; u carries the sequence number and is the last, if it is in the log. */
  ghost predicate OpenAt(s: State, log: seq<nat>, tp: TopicPartition, pid: nat, u: nat) {
    && Under(s.batches, tp, pid, u) && s.batches[u].final.None?
    && SequenceNumber(s, tp) == s.batches[u].stamp.value.sequence
    && (u in log ==> LastUnder(s.batches, log, pid, |log|) == Some(u))
    && (forall j: nat {:trigger Under(s.batches, tp, pid, j)} ::
          Under(s.batches, tp, pid, j) && j != u ==> s.batches[j].final == Some(Succeeded))
  }

  ghost predicate CurrentOk(s: State, log: seq<nat>, tp: TopicPartition) {
    s.producerId.Some? && !s.resetDue && !s.fatal ==>
      Settled(s, log, tp, s.producerId.value.pid) || exists u: nat :: OpenAt(s, log, tp, s.producerId.value.pid, u)
  }

  /** The log, the broker's memory of it, and what is missing from it. */
  ghost predicate BrokerOk(bs: seq<Batch>, log: seq<nat>, live: set<nat>, tails: Tails, tp: TopicPartition) {
    EntriesOk(bs, log, tp) && MissingOk(bs, log, live, tp) && TailsOk(bs, log, tails, tp)
  }

  /** The batches that can still arrive. */
  ghost function LiveIn(c: Config, w: World): set<nat> {
    Arriving(c, w.producer, w.clock)
  }

  /** The producer with a reset that is coming taken for one that is due. */
  ghost function Seen(c: Config, w: World): State {
    w.producer.(resetDue := ResetComing(c, w))
  }

  ghost predicate PartitionOk(c: Config, w: World, tp: TopicPartition) {
    var bs, log := w.producer.batches, Log(w, tp);
    && BrokerOk(bs, log, LiveIn(c, w), w.tails, tp)
    && RepliesOk(bs, log, w.replied, tp) && AckOrder(bs, log)
    && CurrentOk(Seen(c, w), log, tp)
    && UserOk(w.producer, tp)
  }

  ghost predicate AllPartitions(c: Config, w: World) {
    forall tp: TopicPartition {:trigger PartitionOk(c, w, tp)} :: PartitionOk(c, w, tp)
  }

  ghost predicate Sound(c: Config, w: World) {
    && Invariant(c, w.producer) && Dated(c, w.producer) && RoundOk(w.producer, w.clock)
    && (forall i :: i in w.producer.sends ==> i < |w.producer.batches| && w.producer.batches[i].stamp.Some?)
    && (forall i :: i in w.replied ==> i < |w.producer.batches|)
    && AllPartitions(c, w)
  }

  // ----- counting ----------------------------------------------------------------------

  /** Batch i is the same in both as far as a log is concerned. */
  predicate SameEntry(bs: seq<Batch>, bs': seq<Batch>, i: nat) {
    PidOf(bs', i) == PidOf(bs, i)
      && (PidOf(bs, i).Some? ==> bs'[i].records == bs[i].records && bs'[i].stamp == bs[i].stamp)
  }

  lemma {:induction false} WrittenFrame(bs: seq<Batch>, bs': seq<Batch>, log: seq<nat>, log': seq<nat>, pid: nat,
          k: nat)
    requires k <= |log| && k <= |log'|
    requires forall m :: 0 <= m < k ==> log'[m] == log[m] && SameEntry(bs, bs', log[m])
    ensures Written(bs', log', pid, k) == Written(bs, log, pid, k)
    ensures LastUnder(bs', log', pid, k) == LastUnder(bs, log, pid, k)
  {
    if k > 0 {
      WrittenFrame(bs, bs', log, log', pid, k - 1);
      assert SameEntry(bs, bs', log[k - 1]);
    }
  }

  /** Nothing was written after the last batch of a producer id. */
  lemma {:induction false} LastWritten(bs: seq<Batch>, log: seq<nat>, pid: nat, n: nat) returns (k: nat)
    requires n <= |log|
    ensures LastUnder(bs, log, pid, n).None? ==> Written(bs, log, pid, n) == 0
    ensures LastUnder(bs, log, pid, n).Some? ==>
              && k < n && log[k] == LastUnder(bs, log, pid, n).value && PidOf(bs, log[k]) == Some(pid)
              && Written(bs, log, pid, n) == Written(bs, log, pid, k) + |bs[log[k]].records|
  {
    k := 0;
    if n > 0 {
      if PidOf(bs, log[n - 1]) == Some(pid) { k := n - 1; } else { k := LastWritten(bs, log, pid, n - 1); }
    }
  }

  lemma {:induction false} NothingUnder(bs: seq<Batch>, log: seq<nat>, pid: nat, n: nat)
    requires n <= |log| && forall k :: 0 <= k < n ==> PidOf(bs, log[k]) != Some(pid)
    ensures Written(bs, log, pid, n) == 0 && LastUnder(bs, log, pid, n).None?
  {
    if n > 0 { NothingUnder(bs, log, pid, n - 1); }
  }

  lemma SumModulo(a: nat, b: nat)
    ensures (a % SEQUENCE_SPACE + b) % SEQUENCE_SPACE == (a + b) % SEQUENCE_SPACE
  {
  }

  lemma ApartModulo(a: nat, b: nat)
    ensures a % SEQUENCE_SPACE == b % SEQUENCE_SPACE <==> (b - a) % SEQUENCE_SPACE == 0
  {
  }

  /** The broker expects the number of records the producer id has written. */
  lemma ExpectedIs(bs: seq<Batch>, log: seq<nat>, t: Option<Tail>, tp: TopicPartition, pid: nat)
    requires EntriesOk(bs, log, tp) && TailOk(bs, log, t, pid)
    ensures NextSequence(t) == Written(bs, log, pid, |log|) % SEQUENCE_SPACE
  {
    var k := LastWritten(bs, log, pid, |log|);
    if LastUnder(bs, log, pid, |log|).Some? {
      assert EntryOk(bs, log, tp, k);
      SumModulo(Written(bs, log, pid, k), |bs[log[k]].records|);
    }
  }

  // ----- the broker --------------------------------------------------------------------

  /** When a copy of a batch already in the log carries the expected sequence. */
  lemma OldCopyIsExpected(bs: seq<Batch>, log: seq<nat>, t: Option<Tail>, tp: TopicPartition, k: nat)
    requires k < |log| && EntriesOk(bs, log, tp) && Stamped(bs, tp, log[k])
    requires TailOk(bs, log, t, bs[log[k]].stamp.value.pid)
    ensures var pid := bs[log[k]].stamp.value.pid;
            bs[log[k]].stamp.value.sequence == NextSequence(t) <==> ComesRound(bs, log, pid, k)
  {
    var pid := bs[log[k]].stamp.value.pid;
    assert EntryOk(bs, log, tp, k);
    ExpectedIs(bs, log, t, tp, pid);
    ApartModulo(Written(bs, log, pid, k), Written(bs, log, pid, |log|));
  }

  /** A missing batch carries the expected sequence. */
  lemma MissingIsExpected(bs: seq<Batch>, log: seq<nat>, live: set<nat>, t: Option<Tail>, tp: TopicPartition, i: nat)
    requires EntriesOk(bs, log, tp) && MissingOk(bs, log, live, tp) && Missing(bs, log, live, tp, i)
    requires TailOk(bs, log, t, bs[i].stamp.value.pid)
    ensures bs[i].stamp.value.sequence == NextSequence(t)
  {
    ExpectedIs(bs, log, t, tp, bs[i].stamp.value.pid);
  }

  lemma AppendedEntries(bs: seq<Batch>, log: seq<nat>, live: set<nat>, tp: TopicPartition, i: nat)
    requires EntriesOk(bs, log, tp) && MissingOk(bs, log, live, tp) && Missing(bs, log, live, tp, i)
    ensures EntriesOk(bs, log + [i], tp) && MissingOk(bs, log + [i], live, tp)
  {
    var log' := log + [i];
    forall k | 0 <= k < |log'| ensures EntryOk(bs, log', tp, k) {
      if k < |log| { assert EntryOk(bs, log, tp, k); }
      WrittenFrame(bs, bs, log, log', bs[log'[k]].stamp.value.pid, if k < |log| then k else |log|);
    }
    forall j: nat | Missing(bs, log', live, tp, j)
      ensures bs[j].stamp.value.sequence == Written(bs, log', bs[j].stamp.value.pid, |log'|) % SEQUENCE_SPACE
    {
      assert Missing(bs, log, live, tp, j);
      WrittenFrame(bs, bs, log, log', bs[j].stamp.value.pid, |log|);
    }
    forall j: nat, m: nat | Missing(bs, log', live, tp, j) && Missing(bs, log', live, tp, m) && SamePidIn(bs, j, m)
      ensures j == m
    {
      assert Missing(bs, log, live, tp, j) && Missing(bs, log, live, tp, m);
    }
  }

  lemma AppendedTails(bs: seq<Batch>, log: seq<nat>, tails: Tails, tp: TopicPartition, i: nat)
    requires TailsOk(bs, log, tails, tp) && Stamped(bs, tp, i)
    ensures TailsOk(bs, log + [i], tails[(tp, bs[i].stamp.value.pid) := TailOf(bs[i])], tp)
  {
    var log', tails' := log + [i], tails[(tp, bs[i].stamp.value.pid) := TailOf(bs[i])];
    forall pid: nat ensures TailOk(bs, log', TailAt(tails', tp, pid), pid) {
      assert TailOk(bs, log, TailAt(tails, tp, pid), pid);
      WrittenFrame(bs, bs, log, log', pid, |log|);
    }
  }

  /** Appending what was missing settles nothing, but an open batch is then the last. */
  lemma AppendedCurrent(s: State, log: seq<nat>, replied: set<nat>, tp: TopicPartition, i: nat)
    requires CurrentOk(s, log, tp) && RepliesOk(s.batches, log, replied, tp) && Stamped(s.batches, tp, i) && i !in log
    ensures CurrentOk(s, log + [i], tp)
  {
    if s.producerId.Some? && !s.resetDue && !s.fatal {
      var bs, log', pid := s.batches, log + [i], s.producerId.value.pid;
      WrittenFrame(bs, bs, log, log', pid, |log|);
      if Settled(s, log, tp, pid) {
        assert !Under(bs, tp, pid, i);
      } else {
        var u: nat :| OpenAt(s, log, tp, pid, u);
        assert i != u ==> !Under(bs, tp, pid, i);
        assert OpenAt(s, log', tp, pid, u);
      }
    }
  }

  /** Handling any copy, however old, of any request keeps the partition in order. */
  lemma DeliverStaysOk(c: Config, w: World, i: nat)
    requires Possible(c, w, Deliver(i)) && Careful(c, w, Deliver(i))
    requires PartitionOk(c, w, w.producer.batches[i].tp)
    ensures PartitionOk(c, Handle(w, i), w.producer.batches[i].tp)
  {
    var log := Log(w, w.producer.batches[i].tp);
    if i in log {
      var k :| 0 <= k < |log| && log[k] == i;
      OldCopyStaysOk(c, w, i, k);
    } else {
      NewCopyStaysOk(c, w, i);
    }
  }

  lemma OldCopyStaysOk(c: Config, w: World, i: nat, k: nat)
    requires i < |w.producer.batches| && w.producer.batches[i].stamp.Some?
    requires PartitionOk(c, w, w.producer.batches[i].tp)
    requires var log := Log(w, w.producer.batches[i].tp);
             k < |log| && log[k] == i && !ComesRound(w.producer.batches, log, w.producer.batches[i].stamp.value.pid, k)
    ensures PartitionOk(c, Handle(w, i), w.producer.batches[i].tp)
  {
    var bs, tp := w.producer.batches, w.producer.batches[i].tp;
    var log, t := Log(w, tp), TailAt(w.tails, tp, bs[i].stamp.value.pid);
    assert TailOk(bs, log, t, bs[i].stamp.value.pid);
    OldCopyIsExpected(bs, log, t, tp, k);
    assert Handle(w, i) == w.(replied := Handle(w, i).replied) && Handle(w, i).replied <= w.replied + {i};
  }

  lemma NewCopyStaysOk(c: Config, w: World, i: nat)
    requires i < |w.producer.batches| && w.producer.batches[i].stamp.Some?
    requires PartitionOk(c, w, w.producer.batches[i].tp)
    requires i !in Log(w, w.producer.batches[i].tp) && i in LiveIn(c, w)
    ensures PartitionOk(c, Handle(w, i), w.producer.batches[i].tp)
  {
    var bs, tp := w.producer.batches, w.producer.batches[i].tp;
    var log, pid := Log(w, tp), bs[i].stamp.value.pid;
    assert TailOk(bs, log, TailAt(w.tails, tp, pid), pid);
    MissingIsExpected(bs, log, LiveIn(c, w), TailAt(w.tails, tp, pid), tp, i);
    AppendedEntries(bs, log, LiveIn(c, w), tp, i);
    AppendedTails(bs, log, w.tails, tp, i);
    AppendedCurrent(Seen(c, w), log, w.replied, tp, i);
    AppendedReplies(bs, log, w.replied, tp, i);
  }

  lemma AppendedReplies(bs: seq<Batch>, log: seq<nat>, replied: set<nat>, tp: TopicPartition, i: nat)
    requires RepliesOk(bs, log, replied, tp) && AckOrder(bs, log) && Stamped(bs, tp, i) && i !in log
    ensures RepliesOk(bs, log + [i], replied + {i}, tp) && AckOrder(bs, log + [i])
  {
    assert (log + [i])[|log|] == i;
  }

  lemma DeliverSparesOthers(c: Config, w: World, i: nat, tp: TopicPartition)
    requires i < |w.producer.batches| && w.producer.batches[i].stamp.Some? && w.producer.batches[i].tp != tp
    requires PartitionOk(c, w, tp)
    ensures PartitionOk(c, Handle(w, i), tp)
  {
    var w' := Handle(w, i);
    assert w'.producer == w.producer && w'.clock == w.clock && Log(w', tp) == Log(w, tp);
    assert LiveIn(c, w') == LiveIn(c, w) && Seen(c, w') == Seen(c, w);
    forall pid: nat ensures TailOk(w.producer.batches, Log(w, tp), TailAt(w'.tails, tp, pid), pid) {
      assert TailAt(w'.tails, tp, pid) == TailAt(w.tails, tp, pid);
    }
  }

  lemma DeliverKeepsSound(c: Config, w: World, i: nat)
    requires c.idempotent && c.guaranteeMessageOrder && Sound(c, w) && Possible(c, w, Deliver(i))
    requires Careful(c, w, Deliver(i))
    ensures Sound(c, Handle(w, i))
  {
    assert BatchOk(w.producer, i);
    forall tp: TopicPartition ensures PartitionOk(c, Handle(w, i), tp) {
      assert PartitionOk(c, w, tp);
      if tp == w.producer.batches[i].tp { DeliverStaysOk(c, w, i); } else { DeliverSparesOthers(c, w, i, tp); }
    }
  }

  // ----- steps that stamp and acknowledge nothing --------------------------------------

  /** The partition's stamped batches are the same, with the same stamps and records. */
  ghost predicate SameStamped(bs: seq<Batch>, bs': seq<Batch>, tp: TopicPartition) {
    forall j: nat {:trigger Stamped(bs, tp, j)} {:trigger Stamped(bs', tp, j)} ::
      (Stamped(bs', tp, j) <==> Stamped(bs, tp, j)) && (Stamped(bs, tp, j) ==> SameEntry(bs, bs', j))
  }

  /** What is acknowledged was acknowledged, and what is replied to was there. */
  ghost predicate SameAcks(bs: seq<Batch>, bs': seq<Batch>, replied: set<nat>, tp: TopicPartition) {
    forall i: nat :: i < |bs'| && bs'[i].tp == tp && (i in replied || bs'[i].final == Some(Succeeded)) ==>
      i < |bs| && bs[i].tp == tp && (i in replied || bs[i].final == Some(Succeeded))
  }

  /** What was stamped stays so, with its entry, and what is stamped anew cannot arrive. */
  ghost predicate Carries(bs: seq<Batch>, bs': seq<Batch>, live: set<nat>, live': set<nat>, tp: TopicPartition) {
    forall j: nat {:trigger Stamped(bs, tp, j)} {:trigger Stamped(bs', tp, j)} ::
      && (Stamped(bs, tp, j) ==> Stamped(bs', tp, j) && SameEntry(bs, bs', j))
      && (Stamped(bs', tp, j) && j in live' ==> Stamped(bs, tp, j) && j in live)
  }

  lemma BrokerFrame(bs: seq<Batch>, bs': seq<Batch>, log: seq<nat>, live: set<nat>, live': set<nat>, tails: Tails,
          tp: TopicPartition)
    requires BrokerOk(bs, log, live, tails, tp) && Carries(bs, bs', live, live', tp)
    ensures BrokerOk(bs', log, live', tails, tp)
    ensures forall pid: nat :: Written(bs', log, pid, |log|) == Written(bs, log, pid, |log|)
                            && LastUnder(bs', log, pid, |log|) == LastUnder(bs, log, pid, |log|)
  {
    EntriesFrame(bs, bs', log, live, live', tp);
    forall pid: nat ensures Written(bs', log, pid, |log|) == Written(bs, log, pid, |log|)
                         && LastUnder(bs', log, pid, |log|) == LastUnder(bs, log, pid, |log|)
                         && TailOk(bs', log, TailAt(tails, tp, pid), pid) {
      assert TailOk(bs, log, TailAt(tails, tp, pid), pid);
      TailFrame(bs, bs', log, TailAt(tails, tp, pid), tp, pid);
    }
    forall j: nat | Missing(bs', log, live', tp, j)
      ensures Missing(bs, log, live, tp, j) && bs'[j].stamp == bs[j].stamp
    {
      assert Stamped(bs', tp, j);
    }
  }

  lemma EntriesFrame(bs: seq<Batch>, bs': seq<Batch>, log: seq<nat>, live: set<nat>, live': set<nat>,
          tp: TopicPartition)
    requires EntriesOk(bs, log, tp) && Carries(bs, bs', live, live', tp)
    ensures EntriesOk(bs', log, tp) && forall k :: 0 <= k < |log| ==> SameEntry(bs, bs', log[k])
  {
    forall k | 0 <= k < |log| ensures SameEntry(bs, bs', log[k]) { assert EntryOk(bs, log, tp, k); }
    forall k | 0 <= k < |log| ensures EntryOk(bs', log, tp, k) {
      assert EntryOk(bs, log, tp, k);
      WrittenFrame(bs, bs', log, log, bs[log[k]].stamp.value.pid, k);
    }
  }

  lemma TailFrame(bs: seq<Batch>, bs': seq<Batch>, log: seq<nat>, t: Option<Tail>, tp: TopicPartition, pid: nat)
    requires EntriesOk(bs, log, tp) && TailOk(bs, log, t, pid) && forall k :: 0 <= k < |log| ==>
             SameEntry(bs, bs', log[k])
    ensures TailOk(bs', log, t, pid)
    ensures Written(bs', log, pid, |log|) == Written(bs, log, pid, |log|)
    ensures LastUnder(bs', log, pid, |log|) == LastUnder(bs, log, pid, |log|)
  {
    WrittenFrame(bs, bs', log, log, pid, |log|);
    var k := LastWritten(bs, log, pid, |log|);
  }

  lemma AcksFrame(bs: seq<Batch>, bs': seq<Batch>, log: seq<nat>, replied: set<nat>, tp: TopicPartition)
    requires RepliesOk(bs, log, replied, tp) && SameAcks(bs, bs', replied, tp)
    ensures RepliesOk(bs', log, replied, tp)
  {
  }

  /** Only batches acknowledged before are acknowledged now. */
  lemma OrderFrame(bs: seq<Batch>, bs': seq<Batch>, log: seq<nat>)
    requires AckOrder(bs, log)
    requires forall k :: 0 <= k < |log| && log[k] < |bs'| && bs'[log[k]].final == Some(Succeeded) ==>
               log[k] < |bs| && bs[log[k]].final == Some(Succeeded)
    ensures AckOrder(bs', log)
  {
  }

  /** The producer id, its sequence number and the fate of its batches are the same. */
  ghost predicate SameCurrent(s: State, s': State, tp: TopicPartition) {
    s'.producerId.Some? && !s'.resetDue && !s'.fatal ==>
      && s.producerId == s'.producerId && !s.resetDue && !s.fatal && SequenceNumber(s', tp) == SequenceNumber(s, tp)
      && forall j: nat :: Under(s.batches, tp, s.producerId.value.pid, j) ==>
           j < |s'.batches| && s'.batches[j].final == s.batches[j].final
  }

  lemma CurrentFrame(s: State, s': State, log: seq<nat>, tp: TopicPartition)
    requires CurrentOk(s, log, tp) && SameStamped(s.batches, s'.batches, tp) && SameCurrent(s, s', tp)
    requires forall pid: nat :: Written(s'.batches, log, pid, |log|) == Written(s.batches, log, pid, |log|)
                             && LastUnder(s'.batches, log, pid, |log|) == LastUnder(s.batches, log, pid, |log|)
    ensures CurrentOk(s', log, tp)
  {
    if s'.producerId.Some? && !s'.resetDue && !s'.fatal {
      var pid := s.producerId.value.pid;
      forall j: nat ensures Under(s'.batches, tp, pid, j) <==> Under(s.batches, tp, pid, j) {
        assert Stamped(s.batches, tp, j) <==> Stamped(s'.batches, tp, j);
      }
      if !Settled(s, log, tp, pid) {
        var u: nat :| OpenAt(s, log, tp, pid, u);
        assert Under(s'.batches, tp, pid, u);
        assert OpenAt(s', log, tp, pid, u);
      }
    }
  }

  /** The broker is as it was, no more can arrive, and a reset that was coming still is. */
  ghost predicate Follows(c: Config, w: World, w': World, tp: TopicPartition) {
    && w'.logs == w.logs && w'.tails == w.tails && w'.replied == w.replied
    && (forall j: nat {:trigger Stamped(w'.producer.batches, tp, j)} ::
          Stamped(w'.producer.batches, tp, j) && j in LiveIn(c, w') ==> j in LiveIn(c, w))
    && (ResetComing(c, w) && w'.producer.producerId.Some? ==> ResetComing(c, w'))
  }

  lemma StepFollows(c: Config, w: World, e: Event, tp: TopicPartition)
    requires c.idempotent && c.guaranteeMessageOrder && Sound(c, w) && Possible(c, w, Client(e)) && !e.Drain?
    ensures Step(c, w.producer, e).Returns? && Follows(c, w, WorldStep(c, w, Client(e)), tp)
  {
    StepKeepsInvariant(c, w.producer, e);
    ArrivingShrinks(c, w.producer, w.clock, e);
    if !e.ResetPid? { PressingStays(c, w.producer, w.clock, e); }
  }

  /** A step of the client that stamps and acknowledges nothing in the partition. */
  lemma QuietPartition(c: Config, w: World, w': World, tp: TopicPartition)
    requires PartitionOk(c, w, tp) && Follows(c, w, w', tp) && UserOk(w'.producer, tp)
    requires SameStamped(w.producer.batches, w'.producer.batches, tp)
    requires SameAcks(w.producer.batches, w'.producer.batches, w.replied, tp)
    requires forall j: nat :: Stamped(w.producer.batches, tp, j) && w'.producer.batches[j].final == Some(Succeeded) ==>
               w.producer.batches[j].final == Some(Succeeded)
    requires SameCurrent(Seen(c, w), Seen(c, w'), tp)
    ensures PartitionOk(c, w', tp)
  {
    var bs, bs', log := w.producer.batches, w'.producer.batches, Log(w, tp);
    assert Log(w', tp) == log;
    BrokerFrame(bs, bs', log, LiveIn(c, w), LiveIn(c, w'), w.tails, tp);
    AcksFrame(bs, bs', log, w.replied, tp);
    forall k | 0 <= k < |log| ensures Stamped(bs, tp, log[k]) { assert EntryOk(bs, log, tp, k); }
    OrderFrame(bs, bs', log);
    CurrentFrame(Seen(c, w), Seen(c, w'), log, tp);
  }

  // ----- the steps of the client -------------------------------------------------------

  /** No batch is stamped, acknowledged or changed in its text; some may fail. */
  ghost predicate StampsNothing(s: State, s': State) {
    && KeepsText(s, s')
    && forall i :: 0 <= i < |s.batches| ==>
         s'.batches[i].final == s.batches[i].final || (s.batches[i].final.None? && s'.batches[i].final == Some(Failed))
  }

  lemma StampsNothingIsQuiet(c: Config, w: World, w': World, tp: TopicPartition)
    requires PartitionOk(c, w, tp) && Follows(c, w, w', tp) && UserOk(w'.producer, tp)
    requires StampsNothing(w.producer, w'.producer) && SameCurrent(Seen(c, w), Seen(c, w'), tp)
    ensures PartitionOk(c, w', tp)
  {
    var bs, bs' := w.producer.batches, w'.producer.batches;
    forall j: nat
      ensures (Stamped(bs', tp, j) <==> Stamped(bs, tp, j)) && (Stamped(bs, tp, j) ==> SameEntry(bs, bs', j))
    {
      if j < |bs| { assert SameWriting(bs, bs', j); }
    }
    forall j: nat | j < |bs| ensures bs'[j].tp == bs[j].tp { assert SameWriting(bs, bs', j); }
    QuietPartition(c, w, w', tp);
  }

  lemma AppendKeepsPartition(c: Config, w: World, e: Event, tp: TopicPartition)
    requires c.idempotent && c.guaranteeMessageOrder && Sound(c, w) && e.Append? && Possible(c, w, Client(e))
    ensures PartitionOk(c, WorldStep(c, w, Client(e)), tp)
  {
    var s, w' := w.producer, WorldStep(c, w, Client(e));
    assert PartitionOk(c, w, tp) && QueueOk(s, e.tp);
    StepFollows(c, w, e, tp);
    StepKeepsUser(c, s, e, tp);
    AppendIs(c, s, e);
    if JoinsLast(s, e.tp, e.room) {
      var l := Queue(s, e.tp)[|Queue(s, e.tp)| - 1];
      assert StampOk(s, l);
      OneBatchChanges(c, w, w', l, tp);
    } else {
      NewBatchIsQuiet(c, w, w', tp);
    }
  }

  lemma NewBatchIsQuiet(c: Config, w: World, w': World, tp: TopicPartition)
    requires PartitionOk(c, w, tp) && Follows(c, w, w', tp) && UserOk(w'.producer, tp)
    requires forall i :: i in w.replied ==> i < |w.producer.batches|
    requires var s, s', n := w.producer, w'.producer, |w.producer.batches|;
             && |s'.batches| == n + 1 && s'.batches[..n] == s.batches && s'.batches[n].stamp.None?
             && s'.batches[n].final.None?
             && s'.producerId == s.producerId && s'.fatal == s.fatal && s'.sequences == s.sequences
    ensures PartitionOk(c, w', tp)
  {
    var bs, bs', n := w.producer.batches, w'.producer.batches, |w.producer.batches|;
    assert forall j :: 0 <= j < n ==> bs'[j] == bs[j];
    forall j: nat
      ensures (Stamped(bs', tp, j) <==> Stamped(bs, tp, j)) && (Stamped(bs, tp, j) ==> SameEntry(bs, bs', j))
    {
    }
    QuietPartition(c, w, w', tp);
  }

  lemma SendKeepsPartition(c: Config, w: World, e: Event, tp: TopicPartition)
    requires c.idempotent && c.guaranteeMessageOrder && Sound(c, w) && Possible(c, w, Client(e))
    requires e.Send? || e.ExpireQueued? || e.ExpireInFlight? || e.ResetPid?
    ensures PartitionOk(c, WorldStep(c, w, Client(e)), tp)
  {
    assert PartitionOk(c, w, tp);
    StepFollows(c, w, e, tp);
    StepKeepsUser(c, w.producer, e, tp);
    MoveIs(c, w.producer, e);
    MoveKeepsCurrent(c, w, WorldStep(c, w, Client(e)), tp);
    StampsNothingIsQuiet(c, w, WorldStep(c, w, Client(e)), tp);
  }

  lemma MoveKeepsCurrent(c: Config, w: World, w': World, tp: TopicPartition)
    requires Follows(c, w, w', tp) && |w'.producer.batches| == |w.producer.batches|
    requires forall i :: 0 <= i < |w.producer.batches| ==> w'.producer.batches[i].final == w.producer.batches[i].final
    requires var s, s' := w.producer, w'.producer;
             || s'.producerId.None?
             || (s'.producerId == s.producerId && s'.sequences == s.sequences && s'.fatal == s.fatal)
    ensures SameCurrent(Seen(c, w), Seen(c, w'), tp)
  {
  }

  /** Steps that only move batches, or drop the producer id. */
  lemma MoveIs(c: Config, s: State, e: Event)
    requires Enabled(c, s, e) && Step(c, s, e).Returns?
    requires e.Send? || e.ExpireQueued? || e.ExpireInFlight? || e.ResetPid?
    ensures var s' := Step(c, s, e).value;
            && StampsNothing(s, s') && (forall i :: 0 <= i < |s.batches| ==> s'.batches[i].final == s.batches[i].final)
            && (s'.producerId.None?
                  || (s'.producerId == s.producerId && s'.sequences == s.sequences && s'.fatal == s.fatal))
  {
  }

  /** Before a producer id is used nothing is stamped by it and its sequences start at 0. */
  lemma NewPidKeepsPartition(c: Config, w: World, e: Event, tp: TopicPartition)
    requires c.idempotent && c.guaranteeMessageOrder && Sound(c, w) && e.NewPid? && Possible(c, w, Client(e))
    ensures PartitionOk(c, WorldStep(c, w, Client(e)), tp)
  {
    var s, w', log := w.producer, WorldStep(c, w, Client(e)), Log(w, tp);
    assert PartitionOk(c, w, tp);
    StepKeepsUser(c, s, e, tp);
    StepFollows(c, w, e, tp);
    BrokerFrame(s.batches, s.batches, log, LiveIn(c, w), LiveIn(c, w'), w.tails, tp);
    forall k | 0 <= k < |log| ensures PidOf(s.batches, log[k]) != Some(e.pid) {
      assert EntryOk(s.batches, log, tp, k) && StampOk(s, log[k]);
    }
    forall j: nat ensures !Under(s.batches, tp, e.pid, j) { if j < |s.batches| { assert StampOk(s, j); } }
    NothingUnder(s.batches, log, e.pid, |log|);
    assert Settled(Seen(c, w'), log, tp, e.pid);
  }

  /** Failing a batch that no longer carries the current producer id changes nothing for those that do. */
  lemma FailKeepsPartition(c: Config, w: World, e: Event, tp: TopicPartition)
    requires c.idempotent && c.guaranteeMessageOrder && Sound(c, w) && Possible(c, w, Client(e)) && !Orphans(c, w, e)
    requires e.FailExpired? || (e.Respond? && e.err.Some?)
    ensures PartitionOk(c, WorldStep(c, w, Client(e)), tp)
  {
    var s, w' := w.producer, WorldStep(c, w, Client(e));
    assert PartitionOk(c, w, tp);
    StepKeepsUser(c, s, e, tp);
    StepFollows(c, w, e, tp);
    FailStampsNothing(c, s, e);
    FailKeepsCurrent(c, w, e, tp);
    StampsNothingIsQuiet(c, w, w', tp);
  }

  lemma FailStampsNothing(c: Config, s: State, e: Event)
    requires Enabled(c, s, e) && Step(c, s, e).Returns? && (e.FailExpired? || (e.Respond? && e.err.Some?))
    ensures StampsNothing(s, Step(c, s, e).value)
  {
    if e.FailExpired? { FailExpiredIs(c, s, e); } else { ErrorIs(c, s, e); }
  }

  lemma FailKeepsCurrent(c: Config, w: World, e: Event, tp: TopicPartition)
    requires c.idempotent && Dated(c, w.producer) && Possible(c, w, Client(e)) && !Orphans(c, w, e)
    requires Step(c, w.producer, e).Returns? && Follows(c, w, WorldStep(c, w, Client(e)), tp)
    requires e.FailExpired? || (e.Respond? && e.err.Some?)
    requires StampsNothing(w.producer, Step(c, w.producer, e).value)
    ensures SameCurrent(Seen(c, w), Seen(c, WorldStep(c, w, Client(e))), tp)
  {
    var s, s', i := w.producer, Step(c, w.producer, e).value, e.id;
    if e.FailExpired? { FailExpiredIs(c, s, e); } else { ErrorIs(c, s, e); }
    assert Tracked(s, i) && SameWriting(s.batches, s'.batches, i);
  }

  // ----- draining ----------------------------------------------------------------------

  /** A deque head that was never sent is drained only when all earlier batches of the producer id are acknowledged. */
  lemma DrainsWhenSettled(c: Config, s: State, e: Event, log: seq<nat>)
    requires c.idempotent && c.guaranteeMessageOrder && Invariant(c, s) && Dated(c, s) && e.Drain? && Enabled(c, s, e)
    requires !s.batches[Queue(s, e.tp)[0]].inRetry && CurrentOk(s, log, e.tp) && !s.fatal
    ensures s.producerId.Some? && Settled(s, log, e.tp, s.producerId.value.pid)
  {
    var h, pid := Queue(s, e.tp)[0], s.producerId.value.pid;
    assert QueueOk(s, e.tp) && h in Queue(s, e.tp) && BatchOk(s, h) && StampOk(s, h) && Increasing(Queue(s, e.tp));
    forall u: nat ensures !OpenAt(s, log, e.tp, pid, u) {
      if u < |s.batches| { NotOpen(s, log, e.tp, pid, h, u); }
    }
  }

  lemma NotOpen(s: State, log: seq<nat>, tp: TopicPartition, pid: nat, h: nat, u: nat)
    requires u < |s.batches| && h < |s.batches| && BatchOk(s, u) && HolderOk(s, u) && OldOk(s, u) && s.expired == {}
    requires tp !in s.muted
    requires Increasing(Queue(s, tp)) && Queue(s, tp) != [] && h == Queue(s, tp)[0] && s.batches[h].tp == tp
    requires s.batches[h].stamp.None?
    ensures !OpenAt(s, log, tp, pid, u)
  {
    assert Queued(s, h) && Live(s, h);
    if u in Queue(s, tp) { FirstIsLeast(Queue(s, tp), u); }
  }

  lemma FirstIsLeast(q: seq<nat>, u: nat)
    requires Increasing(q) && u in q
    ensures q[0] <= u
  {
    var k :| 0 <= k < |q| && q[k] == u;
    if k > 0 { assert q[0] < q[k]; }
  }

  /** The head is stamped with the sequence expected next, and is the one open batch. */
  lemma StampKeepsPartition(s: State, s': State, log: seq<nat>, live: set<nat>, live': set<nat>, tails: Tails,
          replied: set<nat>, tp: TopicPartition, h: nat)
    requires live' <= live + {h} && BrokerOk(s.batches, log, live, tails, tp)
    requires RepliesOk(s.batches, log, replied, tp) && AckOrder(s.batches, log)
    requires s.producerId.Some? && Settled(s, log, tp, s.producerId.value.pid) && h < |s.batches|
    requires s.batches[h].stamp.None? && s.batches[h].tp == tp && s.batches[h].final.None?
    requires s'.producerId == s.producerId
    requires |s'.batches| == |s.batches| && s'.batches == s.batches[h := s'.batches[h]]
    requires s'.batches[h] == s.batches[h].(closed := true,
               stamp := Some(Stamp(s.producerId.value.pid, s.producerId.value.epoch, SequenceNumber(s, tp))))
    requires SequenceNumber(s', tp) == SequenceNumber(s, tp)
    ensures BrokerOk(s'.batches, log, live', tails, tp)
    ensures RepliesOk(s'.batches, log, replied, tp) && AckOrder(s'.batches, log)
    ensures CurrentOk(s', log, tp)
  {
    var bs, bs', pid := s.batches, s'.batches, s.producerId.value.pid;
    forall k | 0 <= k < |log| ensures SameEntry(bs, bs', log[k]) && log[k] != h { assert EntryOk(bs, log, tp, k); }
    forall k | 0 <= k < |log| ensures EntryOk(bs', log, tp, k) {
      assert EntryOk(bs, log, tp, k);
      WrittenFrame(bs, bs', log, log, bs[log[k]].stamp.value.pid, k);
    }
    forall p: nat ensures TailOk(bs', log, TailAt(tails, tp, p), p) {
      assert TailOk(bs, log, TailAt(tails, tp, p), p);
      TailFrame(bs, bs', log, TailAt(tails, tp, p), tp, p);
    }
    StampedIsMissing(s, bs', log, live, live', tp, h, replied);
    forall j: nat | Under(bs', tp, pid, j) && j != h
      ensures bs'[j].final == Some(Succeeded)
    {
      assert Under(bs, tp, pid, j);
    }
    assert OpenAt(s', log, tp, pid, h);
  }

  lemma StampedIsMissing(s: State, bs': seq<Batch>, log: seq<nat>, live: set<nat>, live': set<nat>,
          tp: TopicPartition, h: nat, replied: set<nat>)
    requires live' <= live + {h} && MissingOk(s.batches, log, live, tp) && RepliesOk(s.batches, log, replied, tp)
    requires h < |s.batches| && h !in log
    requires s.producerId.Some? && Settled(s, log, tp, s.producerId.value.pid) && s.batches[h].stamp.None?
    requires |bs'| == |s.batches| && bs' == s.batches[h := bs'[h]] && bs'[h].stamp.Some? && bs'[h].tp == tp
    requires bs'[h].stamp.value.pid == s.producerId.value.pid && bs'[h].stamp.value.sequence == SequenceNumber(s, tp)
    requires forall k :: 0 <= k < |log| ==> SameEntry(s.batches, bs', log[k])
    ensures MissingOk(bs', log, live', tp)
  {
    var bs, pid := s.batches, s.producerId.value.pid;
    forall j: nat | Missing(bs', log, live', tp, j)
      ensures bs'[j].stamp.value.sequence == Written(bs', log, bs'[j].stamp.value.pid, |log|) % SEQUENCE_SPACE
      ensures j == h || (Missing(bs, log, live, tp, j) && bs'[j] == bs[j] && bs[j].stamp.value.pid != pid)
    {
      WrittenFrame(bs, bs', log, log, bs'[j].stamp.value.pid, |log|);
      if j != h { assert Missing(bs, log, live, tp, j) && (bs[j].stamp.value.pid == pid ==> Under(bs, tp, pid, j)); }
    }
  }

  lemma DrainKeepsPartition(c: Config, w: World, e: Event, tp: TopicPartition)
    requires c.idempotent && c.guaranteeMessageOrder && Sound(c, w) && e.Drain? && Possible(c, w, Client(e))
    ensures PartitionOk(c, WorldStep(c, w, Client(e)), tp)
  {
    var s, w' := w.producer, WorldStep(c, w, Client(e));
    assert PartitionOk(c, w, tp) && PartitionOk(c, w, e.tp);
    StepKeepsUser(c, s, e, tp);
    ArrivingShrinks(c, s, w.clock, e);
    PressingStays(c, s, w.clock, e);
    var h := Queue(s, e.tp)[0];
    assert QueueOk(s, e.tp) && h in Queue(s, e.tp) && BatchOk(s, h) && StampOk(s, h) && Tracked(s, h);
    if tp != e.tp || s.batches[h].inRetry {
      DrainSpares(c, w, e, tp, h);
    } else if ResetComing(c, w) {
      DrainIsBarred(c, w, e, h);
    } else {
      DrainsWhenSettled(c, s, e, Log(w, tp));
      StampKeepsPartition(s, Seen(c, w'), Log(w, tp), LiveIn(c, w), LiveIn(c, w'), w.tails, w.replied, tp, h);
    }
  }

  /** Another partition, or a resend, which keeps its stamp. */
  lemma DrainSpares(c: Config, w: World, e: Event, tp: TopicPartition, h: nat)
    requires c.idempotent && e.Drain? && Possible(c, w, Client(e)) && Step(c, w.producer, e).Returns?
    requires PartitionOk(c, w, tp) && h == Queue(w.producer, e.tp)[0] && w.producer.batches[h].tp == e.tp
    requires tp != e.tp || (w.producer.batches[h].inRetry && h in w.producer.sends)
    requires UserOk(Step(c, w.producer, e).value, tp)
    requires var w' := WorldStep(c, w, Client(e));
             LiveIn(c, w') <= LiveIn(c, w) + {h} && (ResetComing(c, w) ==> ResetComing(c, w'))
    ensures PartitionOk(c, WorldStep(c, w, Client(e)), tp)
  {
    DrainIs(c, w.producer, e);
    assert h in w.producer.sends ==> h in LiveIn(c, w);
    OneBatchChanges(c, w, WorldStep(c, w, Client(e)), h, tp);
  }

  lemma BarredCarries(bs: seq<Batch>, bs': seq<Batch>, live: set<nat>, live': set<nat>, tp: TopicPartition, h: nat)
    requires h < |bs| == |bs'| && bs' == bs[h := bs'[h]] && bs[h].stamp.None? && h !in live' && live' <= live
    ensures Carries(bs, bs', live, live', tp)
  {
  }

  /** A batch drained while a reset is coming is stamped in vain: its request never leaves. */
  lemma DrainIsBarred(c: Config, w: World, e: Event, h: nat)
    requires c.idempotent && e.Drain? && Possible(c, w, Client(e)) && Step(c, w.producer, e).Returns?
    requires PartitionOk(c, w, e.tp) && h == Queue(w.producer, e.tp)[0] && w.producer.batches[h].tp == e.tp
    requires ResetComing(c, w) && RoundOk(w.producer, w.clock) && w.producer.batches[h].final.None?
    requires w.producer.batches[h].stamp.None?
    requires forall i :: i in w.producer.sends ==> i < |w.producer.batches| && w.producer.batches[i].stamp.Some?
    requires UserOk(Step(c, w.producer, e).value, e.tp)
    requires var w' := WorldStep(c, w, Client(e));
             && ResetComing(c, w')
             && (Barred(c, w.producer, w.clock) ==> Barred(c, w'.producer, w'.clock))
    ensures PartitionOk(c, WorldStep(c, w, Client(e)), e.tp)
  {
    var tp, w' := e.tp, WorldStep(c, w, Client(e));
    var bs, bs', log := w.producer.batches, w'.producer.batches, Log(w, tp);
    DrainIs(c, w.producer, e);
    assert Barred(c, w.producer, w.clock);
    BarredCarries(bs, bs', LiveIn(c, w), LiveIn(c, w'), tp, h);
    BrokerFrame(bs, bs', log, LiveIn(c, w), LiveIn(c, w'), w.tails, tp);
    AcksFrame(bs, bs', log, w.replied, tp);
    OrderFrame(bs, bs', log);
  }

  /** The state after a drain, as far as logs are concerned. */
  lemma DrainIs(c: Config, s: State, e: Event)
    requires c.idempotent && e.Drain? && Enabled(c, s, e) && Step(c, s, e).Returns?
    ensures var s', h := Step(c, s, e).value, Queue(s, e.tp)[0];
            && |s'.batches| == |s.batches| && s'.batches == s.batches[h := s'.batches[h]]
            && s'.batches[h].tp == s.batches[h].tp
            && s'.batches[h].records == s.batches[h].records && s'.batches[h].final == s.batches[h].final
            && (s.batches[h].inRetry ==> s'.batches[h].stamp == s.batches[h].stamp)
            && s'.producerId == s.producerId && s'.resetDue == s.resetDue && s'.fatal == s.fatal
            && forall tp: TopicPartition :: SequenceNumber(s', tp) == SequenceNumber(s, tp)
  {
  }

  /** A step that changes one batch, of another partition or neither its stamp, records nor fate. */
  lemma OneBatchChanges(c: Config, w: World, w': World, i: nat, tp: TopicPartition)
    requires PartitionOk(c, w, tp) && Follows(c, w, w', tp) && UserOk(w'.producer, tp)
    requires i < |w.producer.batches|
    requires var s, s' := w.producer, w'.producer;
             && |s'.batches| == |s.batches| && s'.batches == s.batches[i := s'.batches[i]]
             && s'.batches[i].tp == s.batches[i].tp
             && (s.batches[i].tp == tp ==>
                   && s'.batches[i].stamp == s.batches[i].stamp && s'.batches[i].final == s.batches[i].final
                   && (s.batches[i].stamp.Some? ==> s'.batches[i].records == s.batches[i].records))
             && s'.producerId == s.producerId && s'.fatal == s.fatal
             && SequenceNumber(s', tp) == SequenceNumber(s, tp)
    ensures PartitionOk(c, w', tp)
  {
    var bs, bs' := w.producer.batches, w'.producer.batches;
    forall j: nat
      ensures (Stamped(bs', tp, j) <==> Stamped(bs, tp, j)) && (Stamped(bs, tp, j) ==> SameEntry(bs, bs', j))
    {
    }
    QuietPartition(c, w, w', tp);
  }

  // ----- acknowledgements --------------------------------------------------------------

  lemma AckKeepsPartition(c: Config, w: World, e: Event, tp: TopicPartition)
    requires c.idempotent && c.guaranteeMessageOrder && Sound(c, w) && e.Respond? && e.err.None?
    requires Possible(c, w, Client(e))
    ensures PartitionOk(c, WorldStep(c, w, Client(e)), tp)
  {
    var s, w', i := w.producer, WorldStep(c, w, Client(e)), e.id;
    assert PartitionOk(c, w, tp) && PartitionOk(c, w, s.batches[i].tp);
    StepKeepsUser(c, s, e, tp);
    StepFollows(c, w, e, tp);
    SuccessIs(c, s, e);
    assert BatchOk(s, i) && StampOk(s, i) && OldOk(s, i) && Tracked(s, i) && Holds(s, i) && Live(s, i);
    if tp == s.batches[i].tp {
      AckedOwn(c, w, w', i, tp);
    } else {
      AckedOther(c, w, e, tp);
    }
  }

  lemma AckedOther(c: Config, w: World, e: Event, tp: TopicPartition)
    requires e.Respond? && e.err.None? && Possible(c, w, Client(e)) && Step(c, w.producer, e).Returns?
    requires PartitionOk(c, w, tp) && Follows(c, w, WorldStep(c, w, Client(e)), tp)
    requires UserOk(Step(c, w.producer, e).value, tp) && tp != w.producer.batches[e.id].tp
    ensures PartitionOk(c, WorldStep(c, w, Client(e)), tp)
  {
    SuccessIs(c, w.producer, e);
    OneBatchChanges(c, w, WorldStep(c, w, Client(e)), e.id, tp);
  }

  lemma AckedOwn(c: Config, w: World, w': World, i: nat, tp: TopicPartition)
    requires PartitionOk(c, w, tp) && Follows(c, w, w', tp) && UserOk(w'.producer, tp)
    requires i < |w.producer.batches|
    requires i in w.replied && w.producer.batches[i].tp == tp && w.producer.batches[i].stamp.Some?
    requires |w.producer.batches[i].records| <= MAX_SEQUENCE && Tracked(w.producer, i)
    requires forall j :: 0 <= j < |w.producer.batches| ==> OldOk(w.producer, j)
    requires Live(w.producer, i) && w.producer.batches[i].final != Some(Succeeded)
    requires var s, s', b := w.producer, w'.producer, w.producer.batches[i];
             && s'.producerId == s.producerId && s'.fatal == s.fatal
             && s'.batches == s.batches[i := b.(final := if b.final.None? then Some(Succeeded) else b.final)]
             && (if Match(s, b) then
                   && tp in s.sequences
                   && s'.sequences == s.sequences[tp := IncrementedSequence(s.sequences[tp], |b.records|)]
                 else s'.sequences == s.sequences)
    ensures PartitionOk(c, w', tp)
  {
    var bs, bs', log := w.producer.batches, w'.producer.batches, Log(w, tp);
    forall j: nat
      ensures (Stamped(bs', tp, j) <==> Stamped(bs, tp, j)) && (Stamped(bs, tp, j) ==> SameEntry(bs, bs', j))
    {
    }
    BrokerFrame(bs, bs', log, LiveIn(c, w), LiveIn(c, w'), w.tails, tp);
    AckedOrder(w.producer, bs', log, tp, i);
    AckedCurrent(Seen(c, w), Seen(c, w'), log, tp, i);
  }

  /** Everything in the log is older than a batch just acknowledged. */
  lemma AckedOrder(s: State, bs': seq<Batch>, log: seq<nat>, tp: TopicPartition, i: nat)
    requires AckOrder(s.batches, log) && EntriesOk(s.batches, log, tp) && i < |s.batches| && s.batches[i].tp == tp
    requires Live(s, i)
    requires forall j :: 0 <= j < |s.batches| ==> OldOk(s, j)
    requires |bs'| == |s.batches| && bs' == s.batches[i := bs'[i]]
    ensures AckOrder(bs', log)
  {
    forall k | 0 <= k < |log| ensures log[k] <= i { assert EntryOk(s.batches, log, tp, k) && OldOk(s, log[k]); }
  }

  /** The open batch is acknowledged: its records are counted, and the partition is settled. */
  lemma AckedCurrent(s: State, s': State, log: seq<nat>, tp: TopicPartition, i: nat)
    requires CurrentOk(s, log, tp) && EntriesOk(s.batches, log, tp) && i < |s.batches| && s.batches[i].tp == tp
    requires i in log
    requires s.batches[i].stamp.Some? && |s.batches[i].records| <= MAX_SEQUENCE
    requires s.batches[i].final != Some(Succeeded) && Tracked(s, i)
    requires s'.producerId == s.producerId && (s.resetDue && s'.producerId.Some? ==> s'.resetDue) && s'.fatal == s.fatal
    requires |s'.batches| == |s.batches| && s'.batches == s.batches[i := s.batches[i].(final := s'.batches[i].final)]
    requires s.batches[i].final.None? ==> s'.batches[i].final == Some(Succeeded)
    requires if Match(s, s.batches[i]) then
               && tp in s.sequences
               && s'.sequences == s.sequences[tp := IncrementedSequence(s.sequences[tp], |s.batches[i].records|)]
             else s'.sequences == s.sequences
    requires forall pid: nat :: Written(s'.batches, log, pid, |log|) == Written(s.batches, log, pid, |log|)
                             && LastUnder(s'.batches, log, pid, |log|) == LastUnder(s.batches, log, pid, |log|)
    ensures CurrentOk(s', log, tp)
  {
    if s'.producerId.Some? && !s'.resetDue && !s'.fatal {
      var pid := s.producerId.value.pid;
      forall j: nat ensures Under(s'.batches, tp, pid, j) <==> Under(s.batches, tp, pid, j) {}
      if Under(s.batches, tp, pid, i) {
        assert !Settled(s, log, tp, pid);
        var u: nat :| OpenAt(s, log, tp, pid, u);
        assert u == i;
        OpenIsCounted(s, log, tp, pid, i);
        assert Settled(s', log, tp, pid);
      } else if !Settled(s, log, tp, pid) {
        var u: nat :| OpenAt(s, log, tp, pid, u);
        assert OpenAt(s', log, tp, pid, u);
      }
    }
  }

  lemma OpenIsCounted(s: State, log: seq<nat>, tp: TopicPartition, pid: nat, i: nat)
    requires OpenAt(s, log, tp, pid, i) && i in log && EntriesOk(s.batches, log, tp)
    requires |s.batches[i].records| <= MAX_SEQUENCE
    ensures IncrementedSequence(SequenceNumber(s, tp), |s.batches[i].records|) ==
            Written(s.batches, log, pid, |log|) % SEQUENCE_SPACE
  {
    var k := LastWritten(s.batches, log, pid, |log|);
    assert EntryOk(s.batches, log, tp, k);
    IncrementWraps(SequenceNumber(s, tp), |s.batches[i].records|);
    SumModulo(Written(s.batches, log, pid, k), |s.batches[i].records|);
  }

  // ----- every step and run ------------------------------------------------------------

  lemma ClientKeepsPartition(c: Config, w: World, e: Event, tp: TopicPartition)
    requires c.idempotent && c.guaranteeMessageOrder && Sound(c, w) && Possible(c, w, Client(e))
    requires !Orphans(c, w, e)
    ensures PartitionOk(c, WorldStep(c, w, Client(e)), tp)
  {
    match e {
      case Append(_, _, _, _, _, _) => AppendKeepsPartition(c, w, e, tp);
      case Drain(_, _) => DrainKeepsPartition(c, w, e, tp);
      case Respond(_, Some(_), _) => FailKeepsPartition(c, w, e, tp);
      case Respond(_, None, _) => AckKeepsPartition(c, w, e, tp);
      case FailExpired(_) => FailKeepsPartition(c, w, e, tp);
      case Send(_) => SendKeepsPartition(c, w, e, tp);
      case ExpireQueued(_, _) => SendKeepsPartition(c, w, e, tp);
      case ExpireInFlight(_, _) => SendKeepsPartition(c, w, e, tp);
      case Compare(_, _) => StepKeepsInvariant(c, w.producer, e); assert false;
      case ResetPid => SendKeepsPartition(c, w, e, tp);
      case NewPid(_, _) => NewPidKeepsPartition(c, w, e, tp);
    }
  }

  lemma ClientKeepsSound(c: Config, w: World, e: Event)
    requires c.idempotent && c.guaranteeMessageOrder && Sound(c, w) && Possible(c, w, Client(e))
    requires !Orphans(c, w, e)
    ensures Sound(c, WorldStep(c, w, Client(e)))
  {
    var w' := WorldStep(c, w, Client(e));
    StepKeepsInvariant(c, w.producer, e);
    StepKeepsDated(c, w.producer, e);
    WrittenIsForever(c, w.producer, e);
    SendsGrow(c, w, e);
    StepKeepsRound(c, w.producer, w.clock, e);
    forall tp: TopicPartition ensures PartitionOk(c, w', tp) { ClientKeepsPartition(c, w, e, tp); }
  }

  /** A request is only sent for a stamped batch. */
  lemma SendsGrow(c: Config, w: World, e: Event)
    requires c.idempotent && Invariant(c, w.producer) && Enabled(c, w.producer, e) && Step(c, w.producer, e).Returns?
    requires forall i :: i in w.producer.sends ==> i < |w.producer.batches| && w.producer.batches[i].stamp.Some?
    requires AllStayWritten(w.producer, Step(c, w.producer, e).value)
    ensures var s' := Step(c, w.producer, e).value;
            forall i :: i in s'.sends ==> i < |s'.batches| && s'.batches[i].stamp.Some?
  {
    var s, s' := w.producer, Step(c, w.producer, e).value;
    if e.Send? { assert StampOk(s, e.id); }
    if e.Respond? { RespondIs(c, s, e); }
    if e.FailExpired? { FailExpiredIs(c, s, e); }
    forall i | i in s.sends ensures s'.batches[i].stamp.Some? { assert StaysWritten(s.batches[i], s'.batches[i]); }
  }

  /** The turns of a round change nothing but the clock. */
  lemma TurnKeepsSound(c: Config, w: World, we: WorldEvent)
    requires c.idempotent && c.guaranteeMessageOrder && Sound(c, w) && Possible(c, w, we)
    requires we.Round? || we.Scan? || we.Finish?
    ensures Sound(c, WorldStep(c, w, we))
  {
    var w' := WorldStep(c, w, we);
    match we {
      case Round(now) => BeginRound(c, w.producer, w.clock, now);
      case Scan => BeginScan(c, w.producer, w.clock);
      case Finish => EndScan(c, w.producer, w.clock);
    }
    forall tp: TopicPartition ensures PartitionOk(c, w', tp) {
      assert PartitionOk(c, w, tp);
      QuietPartition(c, w, w', tp);
    }
  }

  lemma StepKeepsSound(c: Config, w: World, we: WorldEvent)
    requires c.idempotent && c.guaranteeMessageOrder && Sound(c, w) && Possible(c, w, we) && Careful(c, w, we)
    ensures Sound(c, WorldStep(c, w, we))
  {
    match we {
      case Client(e) => ClientKeepsSound(c, w, e);
      case Deliver(i) => DeliverKeepsSound(c, w, i);
      case _ => TurnKeepsSound(c, w, we);
    }
  }

  lemma {:induction false} RunKeepsSound(c: Config, w: World, es: seq<WorldEvent>)
    requires c.idempotent && c.guaranteeMessageOrder && Sound(c, w) && PossibleRun(c, w, es) && CarefulRun(c, w, es)
    ensures Sound(c, WorldRun(c, w, es))
    decreases es
  {
    if es != [] {
      StepKeepsSound(c, w, es[0]);
      RunKeepsSound(c, WorldStep(c, w, es[0]), es[1..]);
    }
  }

  lemma StartIsSound(c: Config)
    ensures Sound(c, Start())
  {
    forall tp: TopicPartition ensures PartitionOk(c, Start(), tp) {}
  }

  /**
   * Safe delivery. In every run of an idempotent, ordered producer, with expiry, failures,
   * resets of the producer id, retries, lost, delayed and repeated requests and lost replies,
   * in which no batch is orphaned, and for every partition:
   */
  lemma SafeDelivery(c: Config, es: seq<WorldEvent>, tp: TopicPartition)
    requires c.idempotent && c.guaranteeMessageOrder
    requires PossibleRun(c, Start(), es) && CarefulRun(c, Start(), es)
    ensures var w := WorldRun(c, Start(), es);
            var bs, log := w.producer.batches, Log(w, tp);
            // the log holds batches of the partition, each at most once
            && Distinct(log) && (forall k :: 0 <= k < |log| ==> log[k] < |bs| && bs[log[k]].tp == tp)
            // every acknowledged batch of the partition is in it
            && (forall i: nat :: i < |bs| && bs[i].tp == tp && bs[i].final == Some(Succeeded) ==> i in log)
            // and no batch appended later precedes it
            && (forall a, b ::
                  0 <= a < |log| && 0 <= b < |log| && bs[log[a]].final == Some(Succeeded) && log[a] < log[b] ==> a < b)
            // what the application appended is what the batches hold, in order
            && UserRecords(w.producer, tp) == AllRecords(bs, tp, |bs|)
  {
    StartIsSound(c);
    RunKeepsSound(c, Start(), es);
    SoundDelivers(c, WorldRun(c, Start(), es), tp);
  }

  lemma SoundDelivers(c: Config, w: World, tp: TopicPartition)
    requires AllPartitions(c, w)
    ensures var bs, log := w.producer.batches, Log(w, tp);
            && Distinct(log) && (forall k :: 0 <= k < |log| ==> log[k] < |bs| && bs[log[k]].tp == tp)
            && RepliesOk(bs, log, w.replied, tp) && AckOrder(bs, log) && UserOk(w.producer, tp)
  {
    assert PartitionOk(c, w, tp);
    forall k | 0 <= k < |Log(w, tp)| ensures Stamped(w.producer.batches, tp, Log(w, tp)[k]) {
      assert EntryOk(w.producer.batches, Log(w, tp), tp, k);
    }
  }

  // ----- runs in which nothing fails ---------------------------------------------------

  /** All records of the first k of the given batches, in order. */
  function Text(bs: seq<Batch>, ids: seq<nat>, k: nat): seq<int>
    requires k <= |ids|
  {
    if k == 0 then [] else Text(bs, ids, k - 1) + if ids[k - 1] < |bs| then bs[ids[k - 1]].records else []
  }

  /** Every error is retried: nothing expires, no retry limit is hit, no fatal error arrives. */
  ghost predicate Retried(c: Config, w: World, we: WorldEvent)
    requires Possible(c, w, we)
  {
    match we
    case Client(e) =>
      e.Append? || e.Drain? || e.Send? || e.NewPid?
        || (e.Respond? && (e.err.Some? ==> CanRetry(c, w.producer.batches[e.id], e.err.value, e.now)))
    case _ => true
  }

  ghost predicate RetriedRun(c: Config, w: World, es: seq<WorldEvent>)
    requires PossibleRun(c, w, es)
    decreases es
  {
    es == [] || (Retried(c, w, es[0]) && RetriedRun(c, WorldStep(c, w, es[0]), es[1..]))
  }

  /** Nothing has failed or expired, and everything stamped carries the current producer id. */
  ghost predicate Unfailed(s: State) {
    && s.expired == {} && !s.resetDue && !s.fatal
    && forall i :: 0 <= i < |s.batches| ==>
         s.batches[i].final != Some(Failed)
           && (s.batches[i].stamp.Some? ==> s.producerId.Some? && SamePid(s, s.batches[i]))
  }

  lemma RetriedKeepsUnfailed(c: Config, w: World, we: WorldEvent)
    requires c.idempotent && c.guaranteeMessageOrder && Sound(c, w) && Unfailed(w.producer)
    requires Possible(c, w, we) && Retried(c, w, we)
    ensures Unfailed(WorldStep(c, w, we).producer)
    ensures we.Client? ==> !Orphans(c, w, we.e)
  {
    if we.Client? {
      var s, e := w.producer, we.e;
      StepKeepsInvariant(c, s, e);
      match e {
        case Append(_, _, _, _, _, _) => AppendKeepsUnfailed(c, s, e);
        case Drain(_, _) => DrainKeepsUnfailed(c, s, e);
        case Send(_) =>
        case NewPid(_, _) =>
        case Respond(i, _, _) => RetriedResponse(c, s, e);
      }
    }
  }

  lemma AppendKeepsUnfailed(c: Config, s: State, e: Event)
    requires Structure(s) && Unfailed(s) && e.Append? && Enabled(c, s, e)
    ensures Unfailed(Step(c, s, e).value)
  {
    assert QueueOk(s, e.tp);
    AppendIs(c, s, e);
  }

  lemma DrainKeepsUnfailed(c: Config, s: State, e: Event)
    requires c.idempotent && Unfailed(s) && e.Drain? && Enabled(c, s, e) && Step(c, s, e).Returns?
    ensures Unfailed(Step(c, s, e).value)
  {
  }

  lemma RetriedResponse(c: Config, s: State, e: Event)
    requires c.idempotent && Dated(c, s) && Sequenced(s) && Unfailed(s) && e.Respond? && Enabled(c, s, e)
    requires Step(c, s, e).Returns?
    requires e.err.Some? ==> CanRetry(c, s.batches[e.id], e.err.value, e.now)
    ensures Unfailed(Step(c, s, e).value)
  {
    var s', i := Step(c, s, e).value, e.id;
    assert StampOk(s, i) && Tracked(s, i) && Holds(s, i);
    if e.err.Some? { RetryIs(c, s, e); } else { SuccessIs(c, s, e); }
  }

  /** While nothing has failed, the log is the partition's batches up to its last one, in order of creation. */
  lemma LogIsInitial(c: Config, w: World, tp: TopicPartition)
    requires c.idempotent && c.guaranteeMessageOrder && Sound(c, w) && Unfailed(w.producer)
    ensures var bs, log := w.producer.batches, Log(w, tp);
            && Increasing(log)
            && forall k, j :: 0 <= k < |log| && 0 <= j <= log[k] && j < |bs| && bs[j].tp == tp ==> j in log
  {
    var s, log := w.producer, Log(w, tp);
    assert PartitionOk(c, w, tp);
    forall a, b | 0 <= a < b < |log| ensures log[a] < log[b] {
      assert EntryOk(s.batches, log, tp, a) && EntryOk(s.batches, log, tp, b);
      OlderIsAcked(s, tp, log[b], log[a]);
    }
    forall k, j | 0 <= k < |log| && 0 <= j <= log[k] && j < |s.batches| && s.batches[j].tp == tp ensures j in log {
      assert EntryOk(s.batches, log, tp, k);
      OlderIsAcked(s, tp, j, log[k]);
    }
  }

  /** A batch older than a stamped one is acknowledged. */
  lemma OlderIsAcked(s: State, tp: TopicPartition, j: nat, m: nat)
    requires Structure(s) && (forall i :: 0 <= i < |s.batches| ==> OldOk(s, i)) && Unfailed(s)
    requires j < |s.batches| && s.batches[j].tp == tp && Stamped(s.batches, tp, m)
    ensures j < m ==> s.batches[j].final == Some(Succeeded)
  {
    assert BatchOk(s, j) && OldOk(s, m);
    if Live(s, j) {
      assert m <= j;
    } else {
      assert s.batches[j].final.Some? && s.batches[j].final.value != Failed;
    }
  }

  /** The first m entries of the log are those below n. */
  ghost predicate Splits(log: seq<nat>, m: nat, n: nat) {
    m <= |log| && forall k :: 0 <= k < |log| ==> (k < m <==> log[k] < n)
  }

  lemma SplitsEarlier(log: seq<nat>, m: nat, n: nat)
    requires Increasing(log) && n > 0 && Splits(log, m, n)
    ensures n - 1 in log ==> m > 0 && log[m - 1] == n - 1 && Splits(log, m - 1, n - 1)
    ensures n - 1 !in log ==> Splits(log, m, n - 1)
  {
    if n - 1 in log {
      var k :| 0 <= k < |log| && log[k] == n - 1;
      assert k < m && log[m - 1] < n;
      forall i | k < i < |log| ensures log[i] >= n { assert log[k] < log[i]; }
      forall i | 0 <= i < k ensures log[i] < n - 1 { assert log[i] < log[k]; }
    }
  }

  lemma {:induction false} InitialText(bs: seq<Batch>, tp: TopicPartition, log: seq<nat>, n: nat, m: nat)
    requires n <= |bs| && Increasing(log) && Splits(log, m, n)
    requires forall j: nat :: j < n ==> (bs[j].tp == tp <==> j in log)
    ensures AllRecords(bs, tp, n) == Text(bs, log, m)
    decreases n
  {
    if n > 0 {
      SplitsEarlier(log, m, n);
      assert bs[n - 1].tp == tp <==> n - 1 in log;
      InitialText(bs, tp, log, n - 1, if bs[n - 1].tp == tp then m - 1 else m);
    } else if log != [] {
      assert log[0] >= n;
    }
  }

  lemma {:induction false} RecordsGrow(bs: seq<Batch>, tp: TopicPartition, n: nat, k: nat)
    requires n <= k <= |bs|
    ensures AllRecords(bs, tp, n) <= AllRecords(bs, tp, k)
    decreases k - n
  {
    if n < k { RecordsGrow(bs, tp, n, k - 1); }
  }

  lemma {:induction false} RetriedRunIsSound(c: Config, w: World, es: seq<WorldEvent>)
    requires c.idempotent && c.guaranteeMessageOrder && Sound(c, w) && Unfailed(w.producer)
    requires PossibleRun(c, w, es) && RetriedRun(c, w, es) && PunctualRun(c, w, es)
    ensures Sound(c, WorldRun(c, w, es)) && Unfailed(WorldRun(c, w, es).producer)
    decreases es
  {
    if es != [] {
      RetriedKeepsUnfailed(c, w, es[0]);
      StepKeepsSound(c, w, es[0]);
      RetriedRunIsSound(c, WorldStep(c, w, es[0]), es[1..]);
    }
  }

  /** No copy is delayed until its producer id has written a multiple of 2^31 records more. */
  ghost predicate PunctualRun(c: Config, w: World, es: seq<WorldEvent>)
    requires PossibleRun(c, w, es)
    decreases es
  {
    es == [] || ((es[0].Deliver? ==> Careful(c, w, es[0])) && PunctualRun(c, WorldStep(c, w, es[0]), es[1..]))
  }

  /**
   * Exactly once, in order. In every run of an idempotent producer in which errors are retried
   * until the batch is acknowledged, however requests are lost, delayed and repeated and
   * replies lost, and for every partition:
   */
  lemma ExactlyOnceDelivery(c: Config, es: seq<WorldEvent>, tp: TopicPartition)
    requires c.idempotent && c.guaranteeMessageOrder
    requires PossibleRun(c, Start(), es) && RetriedRun(c, Start(), es) && PunctualRun(c, Start(), es)
    ensures var w := WorldRun(c, Start(), es);
            var s, log := w.producer, Log(w, tp);
            // the log holds each batch at most once, in append order
            && Increasing(log)
            // its records are a prefix of what the application appended to the partition
            && Text(s.batches, log, |log|) <= UserRecords(s, tp)
            // every acknowledged batch of the partition is in it
            && (forall i: nat :: i < |s.batches| && s.batches[i].tp == tp && s.batches[i].final == Some(Succeeded) ==>
                  i in log)
            // no batch ever fails, and once all are complete the log is what was appended
            && (forall i: nat :: i < |s.batches| ==> s.batches[i].final != Some(Failed))
            && (s.incomplete == {} ==> Text(s.batches, log, |log|) == UserRecords(s, tp))
  {
    StartIsSound(c);
    RetriedRunIsSound(c, Start(), es);
    var w := WorldRun(c, Start(), es);
    assert PartitionOk(c, w, tp);
    LogIsPrefix(c, w, tp);
    if w.producer.incomplete == {} { AllDoneMeansAllLogged(c, w, tp); }
  }

  lemma LogIsPrefix(c: Config, w: World, tp: TopicPartition)
    requires c.idempotent && c.guaranteeMessageOrder && Sound(c, w) && Unfailed(w.producer)
    ensures Increasing(Log(w, tp)) && Text(w.producer.batches, Log(w, tp), |Log(w, tp)|) <= UserRecords(w.producer, tp)
  {
    var bs, log := w.producer.batches, Log(w, tp);
    assert PartitionOk(c, w, tp);
    LogIsInitial(c, w, tp);
    forall k | 0 <= k < |log| ensures Stamped(bs, tp, log[k]) { assert EntryOk(bs, log, tp, k); }
    if log != [] {
      var n := log[|log| - 1] + 1;
      forall k | 0 <= k < |log| ensures log[k] < n { if k < |log| - 1 { assert log[k] < log[|log| - 1]; } }
      InitialText(bs, tp, log, n, |log|);
      RecordsGrow(bs, tp, n, |bs|);
    }
  }

  lemma DoneIsLogged(s: State, log: seq<nat>, replied: set<nat>, tp: TopicPartition, j: nat)
    requires j < |s.batches| && s.batches[j].tp == tp && s.batches[j].final.Some? && s.batches[j].final != Some(Failed)
    requires RepliesOk(s.batches, log, replied, tp)
    ensures j in log
  {
    assert s.batches[j].final.value == Succeeded;
  }

  lemma AllDoneMeansAllLogged(c: Config, w: World, tp: TopicPartition)
    requires c.idempotent && c.guaranteeMessageOrder && Sound(c, w) && Unfailed(w.producer)
    requires w.producer.incomplete == {}
    ensures Text(w.producer.batches, Log(w, tp), |Log(w, tp)|) == UserRecords(w.producer, tp)
  {
    var s, log := w.producer, Log(w, tp);
    assert PartitionOk(c, w, tp);
    LogIsInitial(c, w, tp);
    forall k | 0 <= k < |log| ensures Stamped(s.batches, tp, log[k]) { assert EntryOk(s.batches, log, tp, k); }
    forall j | 0 <= j < |s.batches| && s.batches[j].tp == tp ensures j in log {
      assert BatchOk(s, j);
      DoneIsLogged(s, log, w.replied, tp, j);
    }
    InitialText(s.batches, tp, log, |s.batches|, |log|);
  }
}
