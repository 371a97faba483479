/**
 * kafka/producer/record_accumulator.py and the idempotence state of transaction_manager.py,
 * with their fields updated in place. Each method is proved against the pipeline's state
 * machine: an object `Shows` its part of a pipeline state before and after.
 */
module Accumulator {
  import opened Common
  import opened ProducerModel
  import opened ProducerInvariants
  import opened ProducerRuns
  import opened ProducerDrain
  import opened ProducerExpiry

  /** Producer id, sequence numbers and the fatal flag of kafka.producer.transaction_manager.TransactionManager. */
  class IdempotenceState {
    var producerId: Option<ProducerIdAndEpoch>
    var sequences: map<TopicPartition, nat>
    var fatal: bool
    ghost var usedPids: set<nat>

    ghost predicate Shows(s: State)
      reads this
    {
      producerId == s.producerId && sequences == s.sequences && fatal == s.fatal && usedPids == s.usedPids
    }

    constructor ()
      ensures Shows(Initial())
    {
      producerId, sequences, fatal, usedPids := None, map[], false, {};
    }

    /** Reading the defaultdict creates the entry. */
    method SequenceNumber(tp: TopicPartition) returns (n: nat)
      modifies this`sequences
      ensures n == (if tp in old(sequences) then old(sequences)[tp] else 0)
      ensures sequences == old(sequences)[tp := n]
    {
      if tp !in sequences {
        sequences := sequences[tp := 0];
      }
      n := sequences[tp];
      assert sequences == sequences[tp := n];
    }

    method IncrementSequenceNumber(tp: TopicPartition, increment: nat) returns (ok: bool)
      modifies this`sequences
      ensures ok <==> tp in old(sequences)
      ensures ok ==> sequences == old(sequences)[tp := IncrementedSequence(old(sequences)[tp], increment)]
      ensures !ok ==> sequences == old(sequences)
    {
      if tp !in sequences { return false; }
      var base := sequences[tp];
      if base > MAX_SEQUENCE - increment {
        sequences := sequences[tp := increment - (MAX_SEQUENCE - base) - 1];
      } else {
        sequences := sequences[tp := sequences[tp] + increment];
      }
      return true;
    }

    method ResetProducerId()
      modifies this`producerId, this`sequences
      ensures producerId.None? && sequences == map[]
    {
      producerId, sequences := None, map[];
    }
  }

  /** Some partition of the given ones is ready and led by node n. */
  ghost predicate ReadyNode(c: Config, s: State, forced: bool, leaderFor: TopicPartition -> Option<int>,
          tps: set<TopicPartition>, now: int, n: int) {
    exists tp :: tp in tps && leaderFor(tp) == Some(n) && n != -1 && ReadyToSend(c, s, forced, tp, now)
  }

  ghost predicate LeaderUnknown(leaderFor: TopicPartition -> Option<int>, tps: set<TopicPartition>) {
    exists tp :: tp in tps && (leaderFor(tp).None? || leaderFor(tp) == Some(-1))
  }

  lemma OnePartitionMore(c: Config, s: State, forced: bool, leaderFor: TopicPartition -> Option<int>,
          tps: set<TopicPartition>, now: int, tp: TopicPartition)
    ensures forall n :: ReadyNode(c, s, forced, leaderFor, tps + {tp}, now, n) <==>
              ReadyNode(c, s, forced, leaderFor, tps, now, n)
                || (leaderFor(tp) == Some(n) && n != -1 && ReadyToSend(c, s, forced, tp, now))
    ensures LeaderUnknown(leaderFor, tps + {tp}) <==>
            LeaderUnknown(leaderFor, tps) || leaderFor(tp).None? || leaderFor(tp) == Some(-1)
  {
    forall n | ReadyNode(c, s, forced, leaderFor, tps, now, n)
      ensures ReadyNode(c, s, forced, leaderFor, tps + {tp}, now, n)
    {
      var t :| t in tps && leaderFor(t) == Some(n) && n != -1 && ReadyToSend(c, s, forced, t, now);
      assert t in tps + {tp};
    }
    assert tp in tps + {tp};
    if LeaderUnknown(leaderFor, tps) {
      var t :| t in tps && (leaderFor(t).None? || leaderFor(t) == Some(-1));
      assert t in tps + {tp};
    }
  }

  predicate Led(leader: Option<int>) {
    leader.Some? && leader != Some(-1)
  }

  /** A partition that can wait is looked at again no later than its head batch becomes sendable. */
  predicate CheckedInTime(c: Config, s: State, tp: TopicPartition, now: int, check: int) {
    tp !in s.muted && Queue(s, tp) != [] && Queue(s, tp)[0] < |s.batches| ==>
      check <= TimeLeft(c, s.batches[Queue(s, tp)[0]], now)
  }

  /** The check time is how long the head of this partition still waits. */
  predicate IsWait(c: Config, s: State, forced: bool, leader: Option<int>, tp: TopicPartition, now: int, check: int) {
    && Led(leader) && tp !in s.muted && Queue(s, tp) != [] && Queue(s, tp)[0] < |s.batches|
    && !ReadyToSend(c, s, forced, tp, now) && check == TimeLeft(c, s.batches[Queue(s, tp)[0]], now)
  }

  /**
   * What `ready` returns for the given partitions: the nodes that lead a sendable one, whether a
   * leader is unknown, and the shortest wait of the others, or none.
   */
  ghost predicate Answers(c: Config, s: State, forced: bool, leaderFor: TopicPartition -> Option<int>,
          tps: set<TopicPartition>, now: int,
          nodes: set<int>, check: int, unknown: bool)
  {
    && (forall n: int {:trigger ReadyNode(c, s, forced, leaderFor, tps, now, n)} ::
          n in nodes <==> ReadyNode(c, s, forced, leaderFor, tps, now, n))
    && (unknown <==> LeaderUnknown(leaderFor, tps))
    && (forall tp :: tp in tps && Led(leaderFor(tp)) && leaderFor(tp).value !in nodes ==>
          CheckedInTime(c, s, tp, now, check))
    && (check == NO_CHECK || exists tp :: tp in tps && IsWait(c, s, forced, leaderFor(tp), tp, now, check))
  }

  /** One more partition is looked at. */
  lemma AnswersMore(c: Config, s: State, forced: bool, leaderFor: TopicPartition -> Option<int>,
          tps: set<TopicPartition>, now: int,
          nodes0: set<int>, check0: int, unknown0: bool, tp: TopicPartition, nodes: set<int>, check: int,
          unknown: bool)
    requires Answers(c, s, forced, leaderFor, tps, now, nodes0, check0, unknown0)
    requires unknown <==> unknown0 || !Led(leaderFor(tp))
    requires nodes == if Led(leaderFor(tp)) && ReadyToSend(c, s, forced, tp, now) then nodes0 + {leaderFor(tp).value}
             else nodes0
    requires check <= check0 && (check == check0 || IsWait(c, s, forced, leaderFor(tp), tp, now, check))
    requires Led(leaderFor(tp)) && leaderFor(tp).value !in nodes ==> CheckedInTime(c, s, tp, now, check)
    ensures Answers(c, s, forced, leaderFor, tps + {tp}, now, nodes, check, unknown)
  {
    OnePartitionMore(c, s, forced, leaderFor, tps, now, tp);
    forall n: int ensures n in nodes <==> ReadyNode(c, s, forced, leaderFor, tps + {tp}, now, n) {
      assert n in nodes0 <==> ReadyNode(c, s, forced, leaderFor, tps, now, n);
    }
    if check != NO_CHECK {
      if check == check0 {
        var t :| t in tps && IsWait(c, s, forced, leaderFor(t), t, now, check0);
        assert t in tps + {tp};
      } else {
        assert tp in tps + {tp};
      }
    }
  }

  /** The next expiry time is the deadline of a deque's head that the scan has passed. */
  predicate DueAtScanned(c: Config, s: State, next: Option<int>, todo: set<TopicPartition>, tp: TopicPartition) {
    tp !in todo && Queue(s, tp) != [] && DueAt(c, s, next, Queue(s, tp)[0])
  }

  /**
   * All deques but those still to do are scanned, and the next expiry time is as it was or a
   * scanned head's deadline.
   */
  ghost predicate ScannedBut(c: Config, s: State, next: Option<int>, todo: set<TopicPartition>, was: Option<int>,
          now: int) {
    && (forall tp: TopicPartition :: tp !in todo ==> Scanned(c, s, next, tp, now))
    && (next == was || exists t: TopicPartition :: DueAtScanned(c, s, next, todo, t))
  }

  lemma OneQueueMore(c: Config, s: State, s': State, next: Option<int>, next': Option<int>, todo: set<TopicPartition>,
          tp: TopicPartition,
          was: Option<int>, now: int)
    requires ScannedBut(c, s, next, todo, was, now) && tp in todo && SameCreation(s, s') && Earlier(next', next)
    requires forall t: TopicPartition :: t != tp ==> Queue(s', t) == Queue(s, t)
    requires Scanned(c, s', next', tp, now)
    requires (next' == next || (Queue(s', tp) != [] && DueAt(c, s', next', Queue(s', tp)[0])))
    ensures ScannedBut(c, s', next', todo - {tp}, was, now)
  {
    forall t: TopicPartition | t !in todo - {tp} ensures Scanned(c, s', next', t, now) {
      if t != tp {
        assert Scanned(c, s, next, t, now);
        StaysScanned(c, s, s', next, next', t, now);
      }
    }
    if next' != next {
      assert DueAtScanned(c, s', next', todo - {tp}, tp);
    } else if next != was {
      var t: TopicPartition :| DueAtScanned(c, s, next, todo, t);
      assert DueAtScanned(c, s', next', todo - {tp}, t);
    }
  }

  /** next_ready_check before any partition was looked at, in milliseconds. */
  const NO_CHECK: int := 9999999990

  class RecordAccumulator {
    const config: Config
    const transactionManager: IdempotenceState
    var batches: seq<Batch>
    var queues: map<TopicPartition, seq<nat>>
    var muted: set<TopicPartition>
    var incomplete: set<nat>
    var drainIndex: nat
    var nextExpiry: Option<int>      // None: infinity
    var closed: bool
    var flushesInProgress: nat
    ghost var user: map<TopicPartition, seq<int>>

    ghost predicate Shows(s: State)
      reads this
    {
      batches == s.batches && queues == s.queues && muted == s.muted && incomplete == s.incomplete && user == s.user
    }

    constructor (config: Config, transactionManager: IdempotenceState)
      ensures Shows(Initial()) && this.config == config && this.transactionManager == transactionManager
      ensures drainIndex == 0 && nextExpiry.None? && !closed && flushesInProgress == 0
    {
      this.config, this.transactionManager := config, transactionManager;
      batches, queues, muted, incomplete := [], map[], {}, {};
      drainIndex, nextExpiry, closed, flushesInProgress, user := 0, None, false, 0, map[];
    }

    /** append: the record joins the last batch of the deque, or starts a new one. */
    method Append(tp: TopicPartition, rec: int, openSize: nat, closedSize: nat, room: bool, now: int, ghost s: State)
      returns (batchIsFull: bool, newBatchCreated: bool)
      requires Shows(s) && Structure(s)
      modifies this`batches, this`queues, this`incomplete, this`user
      ensures Shows(AppendRecord(s, tp, rec, openSize, closedSize, room, now))
      ensures newBatchCreated <==> !JoinsLast(s, tp, room)
      ensures batchIsFull <==>
                |Queue(AppendRecord(s, tp, rec, openSize, closedSize, room, now), tp)| > 1
                  || openSize >= config.batchSize
    {
      assert QueueOk(s, tp);
      user := user[tp := UserRecords(s, tp) + [rec]];
      var q := if tp in queues then queues[tp] else [];
      if q != [] && !batches[q[|q| - 1]].closed && room {
        var last := q[|q| - 1];
        batches := batches[last :=
          batches[last].(records := batches[last].records + [rec], openSize := openSize, closedSize := closedSize)];
        return |q| > 1 || openSize >= config.batchSize, false;
      }
      StartBatch(tp, rec, openSize, closedSize, now);
      return |q| + 1 > 1 || openSize >= config.batchSize, true;
    }

    /** A new batch at the end of the deque. */
    method StartBatch(tp: TopicPartition, rec: int, openSize: nat, closedSize: nat, now: int)
      modifies this`batches, this`queues, this`incomplete
      ensures batches == old(batches) + [Batch(tp, now, [rec], openSize, closedSize, false, false, 0, now, None, None)]
      ensures queues == old(queues)[tp := (if tp in old(queues) then old(queues)[tp] else []) + [|old(batches)|]]
      ensures incomplete == old(incomplete) + {|old(batches)|}
    {
      var q := if tp in queues then queues[tp] else [];
      var batch := Batch(tp, now, [rec], openSize, closedSize, false, false, 0, now, None, None);
      batches := batches + [batch];
      queues := queues[tp := q + [|batches| - 1]];
      incomplete := incomplete + {|batches| - 1};
    }

    method Reenqueue(i: nat, now: int)
      requires i < |batches|
      modifies this`batches, this`queues
      ensures batches == old(batches)[i :=
              old(batches[i]).(inRetry := true, attempts := old(batches[i]).attempts + 1, lastAttempt := now)]
      ensures var tp := old(batches[i]).tp;
              queues == old(queues)[tp := [i] + if tp in old(queues) then old(queues)[tp] else []]
    {
      var b := batches[i];
      batches := batches[i := b.(inRetry := true, attempts := b.attempts + 1, lastAttempt := now)];
      queues := queues[b.tp := [i] + if b.tp in queues then queues[b.tp] else []];
    }

    // ----- ready -----------------------------------------------------------------------

    /** The accumulator is being closed or flushed. */
    predicate Forced()
      reads this
    {
      closed || flushesInProgress > 0
    }

    method CheckHead(tp: TopicPartition, now: int, ghost s: State) returns (sendable: bool, timeLeft: int)
      requires Shows(s) && QueueOk(s, tp) && Queue(s, tp) != [] && tp !in muted
      ensures sendable <==> ReadyToSend(config, s, Forced(), tp, now)
      ensures timeLeft == TimeLeft(config, s.batches[Queue(s, tp)[0]], now)
    {
      var dq := queues[tp];
      var batch := batches[dq[0]];
      var backingOff := batch.attempts > 0 && batch.lastAttempt + config.retryBackoff > now;
      var waitedTime := now - batch.lastAttempt;
      var timeToWait := if backingOff then config.retryBackoff else config.linger;
      timeLeft := if timeToWait - waitedTime > 0 then timeToWait - waitedTime else 0;
      var full := |dq| > 1 || batch.closed || batch.openSize >= config.batchSize;
      var expired := waitedTime >= timeToWait;
      sendable := (full || expired || closed || flushesInProgress > 0) && !backingOff;
    }

    /** One turn of the ready loop. */
    method VisitPartition(tp: TopicPartition, leader: Option<int>, now: int, nodes0: set<int>, check0: int,
            unknown0: bool, ghost s: State)
      returns (nodes: set<int>, nextReadyCheck: int, unknownLeaders: bool)
      requires Shows(s) && QueueOk(s, tp) && tp in queues
      ensures unknownLeaders <==> unknown0 || !Led(leader)
      ensures nodes == if Led(leader) && ReadyToSend(config, s, Forced(), tp, now) then nodes0 + {leader.value}
              else nodes0
      ensures nextReadyCheck <= check0
      ensures nextReadyCheck == check0 || IsWait(config, s, Forced(), leader, tp, now, nextReadyCheck)
      ensures Led(leader) && leader.value !in nodes ==> CheckedInTime(config, s, tp, now, nextReadyCheck)
    {
      nodes, nextReadyCheck, unknownLeaders := nodes0, check0, unknown0;
      if leader.None? || leader == Some(-1) {
        unknownLeaders := true;
      } else if leader.value in nodes || tp in muted || queues[tp] == [] {
        assert leader.value in nodes ==> nodes0 + {leader.value} == nodes0;
      } else {
        var sendable, timeLeft := CheckHead(tp, now, s);
        if sendable {
          nodes := nodes + {leader.value};
        } else {
          nextReadyCheck := if timeLeft < nextReadyCheck then timeLeft else nextReadyCheck;
        }
      }
    }

    /** Which nodes have a sendable batch, when to look again, and whether metadata is missing. */
    method Ready(leaderFor: TopicPartition -> Option<int>, now: int, ghost s: State)
      returns (nodes: set<int>, nextReadyCheck: int, unknownLeaders: bool)
      requires Shows(s) && (forall tp: TopicPartition :: QueueOk(s, tp))
      ensures Answers(config, s, Forced(), leaderFor, queues.Keys, now, nodes, nextReadyCheck, unknownLeaders)
    {
      nodes, nextReadyCheck, unknownLeaders := {}, NO_CHECK, false;
      var todo := queues.Keys;
      ghost var forced, seen := Forced(), {};
      while todo != {}
        invariant todo <= queues.Keys && seen == queues.Keys - todo
        invariant Answers(config, s, forced, leaderFor, seen, now, nodes, nextReadyCheck, unknownLeaders)
        decreases |todo|
      {
        var tp :| tp in todo;
        ghost var nodes0, check0, unknown0 := nodes, nextReadyCheck, unknownLeaders;
        nodes, nextReadyCheck,
          unknownLeaders := VisitPartition(tp, leaderFor(tp), now, nodes, nextReadyCheck, unknownLeaders, s);
        AnswersMore(config, s, forced, leaderFor, seen, now, nodes0, check0, unknown0, tp, nodes, nextReadyCheck,
          unknownLeaders);
        todo, seen := todo - {tp}, seen + {tp};
      }
      assert seen == queues.Keys;
    }

    // ----- drain -----------------------------------------------------------------------

    /** _should_stop_drain_batches_for_partition: `stop` stands for a transactional producer's refusal. */
    predicate ShouldStop(stop: TopicPartition -> bool, tp: TopicPartition)
      reads this, transactionManager
    {
      config.idempotent && (stop(tp) || transactionManager.fatal || transactionManager.producerId.None?)
    }

    method SkipsPartition(tp: TopicPartition, now: int, ghost s: State) returns (skip: bool)
      requires Shows(s) && QueueOk(s, tp)
      ensures skip <==> !Drainable(config, s, tp, now)
    {
      if tp in muted || tp !in queues || |queues[tp]| == 0 { return true; }
      var first := batches[queues[tp][0]];
      return first.attempts > 0 && first.lastAttempt + config.retryBackoff > now;
    }

    /** Take the head of one deque. */
    method TakeHead(tp: TopicPartition, now: int, ghost s: State) returns (i: nat)
      requires Shows(s) && transactionManager.Shows(s) && QueueOk(s, tp) && Drainable(config, s, tp, now)
      requires MaySend(config, s)
      modifies this`batches, this`queues, transactionManager`sequences
      ensures Shows(PopHead(config, s, tp, now)) && transactionManager.Shows(PopHead(config, s, tp, now))
      ensures i == Queue(s, tp)[0]
    {
      var dq := queues[tp];
      i := dq[0];
      queues := queues[tp := dq[1..]];
      var batch := batches[i];
      if config.idempotent && !batch.inRetry {
        var sequence := transactionManager.SequenceNumber(batch.tp);
        batch := batch.(stamp :=
          Some(Stamp(transactionManager.producerId.value.pid, transactionManager.producerId.value.epoch, sequence)));
      }
      batches := batches[i := batch.(closed := true)];
    }

    /** One turn of the drain loop: skip the partition, stop the drain, or take the head of its deque. */
    method DrainPartition(tp: TopicPartition, stop: TopicPartition -> bool, maxSize: nat, now: int, ready0: seq<nat>,
            size0: nat, ghost d0: Drained)
      returns (stopped: bool, ready: seq<nat>, size: nat, ghost d: Drained)
      requires Shows(d0.state) && transactionManager.Shows(d0.state) && ready0 == d0.ready && size0 == d0.size
      requires (forall t: TopicPartition :: QueueOk(d0.state, t)) && (stop(tp) ==> config.idempotent)
      modifies this`batches, this`queues, transactionManager`sequences
      ensures stopped <==> Drainable(config, d0.state, tp, now) && !Takes(config, d0, tp, stop, maxSize, now)
      ensures d == if Drainable(config, d0.state, tp, now) && !stopped then Take(config, d0, tp, now) else d0
      ensures ready == d.ready && size == d.size && Shows(d.state) && transactionManager.Shows(d.state)
      ensures forall t: TopicPartition :: QueueOk(d.state, t)
    {
      stopped, ready, size, d := false, ready0, size0, d0;
      assert QueueOk(d.state, tp);
      var skip := SkipsPartition(tp, now, d.state);
      if skip { return; }
      var first := batches[queues[tp][0]];
      if (size + first.Size() > maxSize && |ready| > 0) || ShouldStop(stop, tp) {
        stopped := true;
        return;
      }
      TakeKeepsQueues(config, d, tp, now);
      var i := TakeHead(tp, now, d.state);
      d := Take(config, d, tp, now);
      size := size + batches[i].Size();
      ready := ready + [i];
    }

    /** Move the drain index on, round the n partitions of a node. */
    method Advance(n: nat, ghost from: nat, ghost v: nat)
      requires from < n && v < n && drainIndex == Place(n, from, v)
      modifies this`drainIndex
      ensures drainIndex == Place(n, from, v + 1)
    {
      NextPlace(n, drainIndex);
      drainIndex := (drainIndex + 1) % n;
    }

    /**
     * drain_batches_for_one_node. From any drain index the loop ends, visits each partition
     * at most once, and takes what DrainNode takes in rotated order.
     */
    method DrainBatchesForOneNode(parts: seq<TopicPartition>, stop: TopicPartition -> bool, maxSize: nat, now: int,
            ghost s: State)
      returns (ready: seq<nat>, ghost d: Drained)
      requires Shows(s) && transactionManager.Shows(s) && (forall tp: TopicPartition :: QueueOk(s, tp))
      requires forall tp :: stop(tp) ==> config.idempotent
      modifies this`batches, this`queues, this`drainIndex, transactionManager`sequences
      ensures d == if parts == [] then Drained(s, [], 0)
                   else DrainNode(config, Drained(s, [], 0), Rotated(parts, old(drainIndex) % |parts|), stop, maxSize,
                     now)
      ensures ready == d.ready && Shows(d.state) && transactionManager.Shows(d.state)
    {
      ready := [];
      d := Drained(s, [], 0);
      if parts == [] { return; }
      var size := 0;
      drainIndex := drainIndex % |parts|;
      var start: Option<nat> := None;
      ghost var from, v := drainIndex, 0;
      ghost var order := Rotated(parts, from);
      ghost var goal := DrainNode(config, d, order, stop, maxSize, now);
      while start != Some(drainIndex)
        invariant 0 <= v <= |parts| && from < |parts| && drainIndex == Place(|parts|, from, v)
        invariant v == 0 ==> start.None?
        invariant v > 0 ==> start == Some(from)
        invariant ready == d.ready && size == d.size && Shows(d.state) && transactionManager.Shows(d.state)
        invariant forall tp: TopicPartition :: QueueOk(d.state, tp)
        invariant DrainNode(config, d, order[v..], stop, maxSize, now) == goal
        decreases |parts| - v
      {
        RotatedAt(parts, from, v);
        var tp := parts[drainIndex];
        if start.None? { start := Some(drainIndex); }
        Advance(|parts|, from, v);
        v := v + 1;
        var stopped;
        stopped, ready, size, d := DrainPartition(tp, stop, maxSize, now, ready, size, d);
        if stopped { break; }
      }
    }

    /**
     * drain: one node after another, with the drain index carried along; `parts` are the
     * partitions each node leads.
     */
    method Drain(parts: seq<seq<TopicPartition>>, stop: TopicPartition -> bool, maxSize: nat, now: int, ghost s: State)
      returns (lists: seq<seq<nat>>, ghost orders: seq<seq<TopicPartition>>)
      requires Shows(s) && transactionManager.Shows(s) && (forall tp: TopicPartition :: QueueOk(s, tp))
      requires forall tp :: stop(tp) ==> config.idempotent
      requires forall k :: 0 <= k < |parts| ==> Distinct(parts[k])
      modifies this`batches, this`queues, this`drainIndex, transactionManager`sequences
      ensures |orders| == |parts|
      ensures forall k :: 0 <= k < |parts| ==> Distinct(orders[k]) && forall tp :: tp in orders[k] <==> tp in parts[k]
      ensures var r := DrainOrders(config, s, orders, stop, maxSize, now);
              lists == r.lists && Shows(r.state) && transactionManager.Shows(r.state)
    {
      lists, orders := [], [];
      ghost var r := Round(s, []);
      for k := 0 to |parts|
        invariant |orders| == k && r == DrainOrders(config, s, orders, stop, maxSize, now)
        invariant lists == r.lists && Shows(r.state) && transactionManager.Shows(r.state)
        invariant forall tp: TopicPartition :: QueueOk(r.state, tp)
        invariant forall j :: 0 <= j < k ==> Distinct(orders[j]) && forall tp :: tp in orders[j] <==> tp in parts[j]
      {
        ghost var order := if parts[k] == [] then [] else Rotated(parts[k], drainIndex % |parts[k]|);
        if parts[k] != [] { RotatedDistinct(parts[k], drainIndex % |parts[k]|); }
        NodeKeepsQueues(config, Drained(r.state, [], 0), order, stop, maxSize, now);
        ghost var d;
        var ready;
        ready, d := DrainBatchesForOneNode(parts[k], stop, maxSize, now, r.state);
        assert (orders + [order])[..k] == orders;
        orders, lists, r := orders + [order], lists + [ready], Round(d.state, r.lists + [d.ready]);
      }
    }

    // ----- expiry ----------------------------------------------------------------------

    method ResetNextBatchExpiryTime()
      modifies this`nextExpiry
      ensures nextExpiry.None?
    {
      nextExpiry := None;
    }

    method MaybeUpdateNextBatchExpiryTime(created: int)
      modifies this`nextExpiry
      ensures Covers(config, nextExpiry, created) && Earlier(nextExpiry, old(nextExpiry))
      ensures nextExpiry == old(nextExpiry) || nextExpiry == Some(created + config.deliveryTimeout)
    {
      var deadline := created + config.deliveryTimeout;
      if nextExpiry.None? || deadline < nextExpiry.value {
        nextExpiry := Some(deadline);
      }
    }

    /** Every batch found is an earlier one or has expired. */
    static ghost predicate OnlyExpired(c: Config, bs: seq<Batch>, found0: seq<nat>, found: seq<nat>, now: int) {
      forall i :: i in found ==> i in found0 || (i < |bs| && bs[i].Expired(c.deliveryTimeout, now))
    }

    /** Pop an expired head. */
    method PopExpired(tp: TopicPartition, now: int, ghost s0: State, ghost s: State, found: seq<nat>)
      returns (ghost s': State)
      requires Shows(s) && ReachableState(config, s0) && TakenOut(config, s0, s, found)
      requires Enabled(config, s, ExpireQueued(tp, now))
      modifies this`batches, this`queues
      ensures Shows(s') && QueuesScanned(s, s') && SameCreation(s, s')
      ensures TakenOut(config, s0, s', found + [Queue(s, tp)[0]]) && s'.queues == s.queues[tp := Queue(s, tp)[1..]]
    {
      var i := queues[tp][0];
      QueuedExpires(config, s0, s, found, tp, now);
      queues := queues[tp := queues[tp][1..]];
      batches := batches[i := batches[i].(closed := true)];
      s' := s.(queues := queues, batches := batches, expired := s.expired + {i}, resetDue := ResetDue(config, s, i));
    }

    /** Pop the head of one deque if it has expired, else note its deadline. */
    method ExpireHead(tp: TopicPartition, now: int, ghost s0: State, ghost s: State, found: seq<nat>)
      returns (gone: Option<nat>, ghost s': State)
      requires Shows(s) && ReachableState(config, s0) && TakenOut(config, s0, s, found) && tp in queues
      requires queues[tp] != []
      modifies this`batches, this`queues, this`nextExpiry
      ensures Shows(s') && QueuesScanned(s, s') && SameCreation(s, s')
      ensures gone.Some? ==> TakenOut(config, s0, s', found + [gone.value]) && nextExpiry == old(nextExpiry)
      ensures gone.Some? ==> s'.queues == s.queues[tp := Queue(s, tp)[1..]]
      ensures gone.Some? ==> gone.value < |s.batches| && s.batches[gone.value].Expired(config.deliveryTimeout, now)
      ensures gone.None? ==> s' == s && Scanned(config, s, nextExpiry, tp, now) && Earlier(nextExpiry, old(nextExpiry))
      ensures gone.None? ==> nextExpiry == old(nextExpiry) || DueAt(config, s, nextExpiry, Queue(s, tp)[0])
    {
      TakenOutIsOk(config, s0, s, found);
      assert QueueOk(s, tp);
      var i := queues[tp][0];
      if config.deliveryTimeout <= now - batches[i].created {
        s' := PopExpired(tp, now, s0, s, found);
        gone := Some(i);
      } else {
        MaybeUpdateNextBatchExpiryTime(batches[i].created);
        gone, s' := None, s;
      }
    }

    /** Pop the expired heads of one deque. */
    method ExpireQueue(tp: TopicPartition, now: int, ghost s0: State, ghost s: State, expired0: seq<nat>)
      returns (expired: seq<nat>, ghost s': State)
      requires Shows(s) && ReachableState(config, s0) && TakenOut(config, s0, s, expired0) && tp in queues
      modifies this`batches, this`queues, this`nextExpiry
      ensures Shows(s') && TakenOut(config, s0, s', expired) && QueuesScanned(s, s')
      ensures forall t: TopicPartition :: t != tp ==> Queue(s', t) == Queue(s, t)
      ensures queues.Keys == old(queues.Keys) && Scanned(config, s', nextExpiry, tp, now)
      ensures Earlier(nextExpiry, old(nextExpiry))
      ensures SameCreation(s, s') && OnlyExpired(config, s.batches, expired0, expired, now)
      ensures nextExpiry == old(nextExpiry) || (Queue(s', tp) != [] && DueAt(config, s', nextExpiry, Queue(s', tp)[0]))
    {
      expired, s' := expired0, s;
      while queues[tp] != []
        invariant tp in queues && queues.Keys == old(queues.Keys) && nextExpiry == old(nextExpiry)
        invariant Shows(s') && TakenOut(config, s0, s', expired) && QueuesScanned(s, s')
        invariant forall t: TopicPartition :: t != tp ==> Queue(s', t) == Queue(s, t)
        invariant SameCreation(s, s') && OnlyExpired(config, s.batches, expired0, expired, now)
        decreases |queues[tp]|
      {
        var gone;
        gone, s' := ExpireHead(tp, now, s0, s', expired);
        if gone.None? { break; }
        expired := expired + [gone.value];
      }
    }

    /** One more deque of expired_batches. */
    method ScanQueue(tp: TopicPartition, now: int, ghost s0: State, ghost s: State, expired0: seq<nat>,
            ghost todo: set<TopicPartition>, ghost was: Option<int>)
      returns (expired: seq<nat>, ghost s': State)
      requires Shows(s) && ReachableState(config, s0) && TakenOut(config, s0, s, expired0) && tp in queues && tp in todo
      requires ScannedBut(config, s, nextExpiry, todo, was, now)
      modifies this`batches, this`queues, this`nextExpiry
      ensures Shows(s') && TakenOut(config, s0, s', expired) && QueuesScanned(s, s') && queues.Keys == old(queues.Keys)
      ensures ScannedBut(config, s', nextExpiry, todo - {tp}, was, now)
      ensures SameCreation(s, s') && OnlyExpired(config, s.batches, expired0, expired, now)
    {
      ghost var next := nextExpiry;
      expired, s' := ExpireQueue(tp, now, s0, s, expired0);
      OneQueueMore(config, s, s', next, nextExpiry, todo, tp, was, now);
    }

    /** expired_batches: afterwards every deque is empty or starts with a batch that has not expired. */
    method ExpiredBatches(now: int, ghost s: State) returns (expired: seq<nat>, ghost s': State)
      requires Shows(s) && ReachableState(config, s)
      modifies this`batches, this`queues, this`nextExpiry
      ensures Shows(s') && TakenOut(config, s, s', expired) && QueuesScanned(s, s')
      ensures AllScanned(config, s', nextExpiry, now)
      ensures SameCreation(s, s') && OnlyExpired(config, s.batches, [], expired, now)
      ensures nextExpiry == old(nextExpiry) || DueAtHead(config, s', nextExpiry)
    {
      StartExpiring(config, s);
      expired, s' := [], s;
      var todo := queues.Keys;
      ghost var was := nextExpiry;
      while todo != {}
        invariant todo <= queues.Keys && Shows(s') && TakenOut(config, s, s', expired) && QueuesScanned(s, s')
        invariant ScannedBut(config, s', nextExpiry, todo, was, now)
        invariant SameCreation(s, s') && OnlyExpired(config, s.batches, [], expired, now)
        decreases |todo|
      {
        var tp :| tp in todo;
        expired, s' := ScanQueue(tp, now, s, s', expired, todo, was);
        todo := todo - {tp};
      }
      if nextExpiry != was {
        var t: TopicPartition :| DueAtScanned(config, s', nextExpiry, todo, t);
      }
    }
  }
}
