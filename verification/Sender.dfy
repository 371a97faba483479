/** kafka/producer/sender.py: the sender thread's produce round and the handling of responses. */
module SenderThread {
  import opened Common
  import opened ProducerModel
  import opened ProducerInvariants
  import opened ProducerRuns
  import ProducerSequences
  import ProducerHistory
  import opened ProducerDrain
  import opened HeapTies
  import opened ProducerExpiry
  import opened Accumulator

  /** A response ends the wait of its own request only. */
  lemma RespondKeepsWaiting(c: Config, s: State, e: Event)
    requires e.Respond? && Enabled(c, s, e) && Step(c, s, e).Returns?
    ensures Step(c, s, e).value.awaiting == s.awaiting - {e.id} && Step(c, s, e).value.expired == s.expired
    ensures Step(c, s, e).value.resetDue == s.resetDue
    ensures Tie(Step(c, s, e).value) ==> Tie(s)
  {
    ProducerHistory.RespondIs(c, s, e);
    FewerTies(s, Step(c, s, e).value);
  }

  lemma FewerTies(s: State, s1: State)
    requires SameBirth(s, s1) && s1.inFlight <= s.inFlight
    ensures Tie(s1) ==> Tie(s)
  {
    if Tie(s1) {
      var i: nat, j: nat :| Tied(s1, i, j);
      assert Tied(s, i, j);
    }
  }

  lemma ResponseReturns(c: Config, s: State, e: Event)
    requires ReachableState(c, s) && e.Respond? && Enabled(c, s, e)
    ensures var s0 := s.(awaiting := s.awaiting - {e.id});
            var r := if e.err.Some? then RetryOrFail(c, s0, e.id, e.err.value, e.now) else Succeed(c, s0, e.id);
            r.Returns? && |r.value.batches| == |s.batches| && Step(c, s, e) == Unmute(c, r.value, e.id)
    ensures Step(c, s, e).Returns?
  {
    ReachableKeepsInvariant(c, s);
    StepKeepsInvariant(c, s, e);
    ProducerSequences.RespondKeepsCount(c, s, e);
  }

  lemma WaitingInRange(c: Config, s: State, i: nat)
    requires ReachableState(c, s) && i in s.awaiting
    ensures i < |s.batches|
  {
    ReachableKeepsInvariant(c, s);
  }

  class Sender {
    const config: Config
    const accumulator: RecordAccumulator
    const transactionManager: IdempotenceState
    var inFlight: set<nat>
    // requests under way and history, not held by the thread itself
    ghost var drained: set<nat>
    ghost var awaiting: set<nat>
    ghost var expired: set<nat>
    ghost var resetDue: bool
    ghost var completed: seq<nat>
    ghost var sends: seq<nat>
    ghost var acks: seq<nat>

    ghost predicate Wired()
      reads this
    {
      accumulator.config == config && accumulator.transactionManager == transactionManager
    }

    /** The pipeline state the three objects make up. */
    ghost function View(): State
      reads this, accumulator, transactionManager
    {
      State(accumulator.batches, accumulator.queues, accumulator.muted, accumulator.incomplete,
            inFlight, drained, awaiting, expired,
            transactionManager.producerId, transactionManager.sequences, transactionManager.fatal, resetDue,
            completed, sends, acks, transactionManager.usedPids, accumulator.user)
    }

    ghost predicate Shows(s: State)
      reads this, accumulator, transactionManager
    {
      Wired() && View() == s
    }

    constructor (config: Config, accumulator: RecordAccumulator, transactionManager: IdempotenceState)
      requires accumulator.Shows(Initial()) && transactionManager.Shows(Initial())
      requires accumulator.config == config && accumulator.transactionManager == transactionManager
      ensures Shows(Initial()) && this.config == config
    {
      this.config, this.accumulator, this.transactionManager := config, accumulator, transactionManager;
      inFlight, drained, awaiting, expired, completed, sends, acks, resetDue := {}, {}, {}, {}, [], [], [], false;
    }

    // ----- completion ------------------------------------------------------------------

    /** ProducerBatch.done, then removal from the heap and the incomplete set if it was the first time. */
    method Done(i: nat, f: FinalState, ghost s: State) returns (ok: bool)
      requires Shows(s) && i < |s.batches|
      modifies this`inFlight, this`completed, accumulator`batches, accumulator`incomplete
      ensures ok <==> ProducerModel.Done(s, i, f).Returns?
      ensures ok ==> Shows(ProducerModel.Done(s, i, f).value)
      ensures !ok ==> Shows(s)
    {
      var b := accumulator.batches[i];
      if b.final.None? {
        accumulator.batches := accumulator.batches[i := b.(final := Some(f))];
        completed := completed + [i];
        inFlight := inFlight - {i};
        accumulator.incomplete := accumulator.incomplete - {i};
        return true;
      } else if b.final == Some(Succeeded) {
        return false;
      }
      return true;
    }

    method FailBatch(i: nat, err: ProduceError, ghost s: State) returns (ok: bool)
      requires Shows(s) && i < |s.batches|
      modifies this`inFlight, this`completed, accumulator`batches, accumulator`incomplete
      modifies transactionManager`producerId, transactionManager`sequences, transactionManager`fatal
      ensures ok <==> ProducerModel.FailBatch(config, s, i, err).Returns?
      ensures ok ==> Shows(ProducerModel.FailBatch(config, s, i, err).value)
    {
      NotifyFailure(i, err, s);
      ok := Done(i, Failed, NoteFailure(config, s, i, err));
    }

    /** TransactionManager.has_producer_id, for the producer id of a batch. */
    predicate HasProducerId(b: Batch)
      reads this, transactionManager
    {
      match (transactionManager.producerId, b.stamp)
      case (Some(p), Some(st)) => p.pid == st.pid
      case (None, None) => true
      case _ => false
    }

    /** What _fail_batch tells the TransactionManager: drop the producer id, or stop for good. */
    method NotifyFailure(i: nat, err: ProduceError, ghost s: State)
      requires Shows(s) && i < |s.batches|
      modifies transactionManager`producerId, transactionManager`sequences, transactionManager`fatal
      ensures Shows(NoteFailure(config, s, i, err))
    {
      if !config.idempotent { return; }
      var b := accumulator.batches[i];
      if err.outOfOrderSequence && HasProducerId(b) {
        transactionManager.ResetProducerId();
      } else if err.fatal {
        transactionManager.fatal := true;
      }
    }

    /** _can_retry, with the clock read anew. */
    predicate MayRetry(i: nat, err: ProduceError, now: int)
      requires i < |accumulator.batches|
      reads this, accumulator
      ensures MayRetry(i, err, now) <==> CanRetry(config, accumulator.batches[i], err, now)
      ensures MayRetry(i, err, now) ==> now < accumulator.batches[i].created + config.deliveryTimeout
    {
      var b := accumulator.batches[i];
      && !(config.deliveryTimeout <= now - b.created)
      && (config.retries.None? || b.attempts < config.retries.value)
      && b.final.None?
      && err.retriable
    }

    predicate MatchesProducerId(b: Batch)
      reads this, transactionManager
    {
      match (transactionManager.producerId, b.stamp)
      case (Some(p), Some(st)) => p.pid == st.pid && p.epoch == st.epoch
      case (None, None) => true
      case _ => false
    }

    /** The error branch of _complete_batch. */
    method RetryOrFail(i: nat, err: ProduceError, now: int, ghost s: State) returns (ok: bool)
      requires Shows(s) && i < |s.batches|
      modifies this`inFlight, this`completed, accumulator`batches, accumulator`incomplete, accumulator`queues
      modifies transactionManager`producerId, transactionManager`sequences, transactionManager`fatal
      ensures ok <==> ProducerModel.RetryOrFail(config, s, i, err, now).Returns?
      ensures ok ==> Shows(ProducerModel.RetryOrFail(config, s, i, err, now).value)
    {
      var retry := MayRetry(i, err, now) && (!config.idempotent || MatchesProducerId(accumulator.batches[i]));
      if retry {
        accumulator.Reenqueue(i, now);
        inFlight := inFlight - {i};
        return true;
      }
      ok := FailBatch(i, err, s);
    }

    /** The success branch of _complete_batch. */
    method Succeed(i: nat, ghost s: State) returns (ok: bool)
      requires Shows(s) && i < |s.batches|
      modifies this`inFlight, this`completed, this`acks, accumulator`batches, accumulator`incomplete,
        transactionManager`sequences
      ensures ok <==> ProducerModel.Succeed(config, s, i).Returns?
      ensures ok ==> Shows(ProducerModel.Succeed(config, s, i).value)
    {
      acks := acks + [i];
      ok := Done(i, Succeeded, s.(acks := s.acks + [i]));
      if ok && config.idempotent && MatchesProducerId(accumulator.batches[i]) {
        ok := transactionManager.IncrementSequenceNumber(accumulator.batches[i].tp, |accumulator.batches[i].records|);
      }
    }

    method Unmute(i: nat, ghost s: State) returns (ok: bool)
      requires Shows(s) && i < |s.batches|
      modifies accumulator`muted
      ensures ok <==> ProducerModel.Unmute(config, s, i).Returns?
      ensures ok ==> Shows(ProducerModel.Unmute(config, s, i).value)
    {
      if config.guaranteeMessageOrder {
        if accumulator.batches[i].tp !in accumulator.muted { return false; }
        accumulator.muted := accumulator.muted - {accumulator.batches[i].tp};
      }
      return true;
    }

    /** _complete_batch: retry, fail or acknowledge, then unmute the partition. It never raises. */
    method CompleteBatch(i: nat, err: Option<ProduceError>, now: int, ghost s: State) returns (ok: bool)
      requires Shows(s) && ReachableState(config, s) && Enabled(config, s, Respond(i, err, now)) && !Tie(s)
      modifies this, accumulator, transactionManager
      ensures ok && Step(config, s, Respond(i, err, now)).Returns?
      ensures Shows(Step(config, s, Respond(i, err, now)).value)
    {
      ResponseReturns(config, s, Respond(i, err, now));
      awaiting := awaiting - {i};
      ghost var s0 := s.(awaiting := s.awaiting - {i});
      if err.Some? {
        ok := RetryOrFail(i, err.value, now, s0);
        ok := Unmute(i, ProducerModel.RetryOrFail(config, s0, i, err.value, now).value);
      } else {
        ok := Succeed(i, s0);
        ok := Unmute(i, ProducerModel.Succeed(config, s0, i).value);
      }
    }

    /** _handle_produce_response and _failed_produce: one batch of the request after another. */
    method HandleResponse(ids: seq<nat>, errors: seq<Option<ProduceError>>, times: seq<int>, ghost s: State)
      returns (ghost s': State, ghost es: seq<Event>)
      requires Shows(s) && ReachableState(config, s) && s.expired == {} && !s.resetDue && !Tie(s)
      requires |errors| == |ids| == |times| && Distinct(ids) && forall k :: 0 <= k < |ids| ==> ids[k] in s.awaiting
      modifies this, accumulator, transactionManager
      ensures ValidRun(config, s, es) && Run(config, s, es) == Returns(s') && Shows(s') && ReachableState(config, s')
      ensures |es| == |ids| && forall k :: 0 <= k < |ids| ==> es[k] == Respond(ids[k], errors[k], times[k])
    {
      s', es := s, [];
      for k := 0 to |ids|
        invariant ValidRun(config, s, es) && Run(config, s, es) == Returns(s') && Shows(s')
        invariant ReachableState(config, s') && s'.expired == {} && !s'.resetDue && !Tie(s')
        invariant |es| == k && forall j :: 0 <= j < k ==> es[j] == Respond(ids[j], errors[j], times[j])
        invariant forall j :: k <= j < |ids| ==> ids[j] in s'.awaiting
      {
        ghost var e := Respond(ids[k], errors[k], times[k]);
        WaitingInRange(config, s', ids[k]);
        OneMoreStep(config, s, es, s', e);
        RespondKeepsWaiting(config, s', e);
        var ok := CompleteBatch(ids[k], errors[k], times[k], s');
        s', es := Step(config, s', e).value, es + [e];
      }
    }

    // ----- a produce round -------------------------------------------------------------

    /**
     * Push the drained batches onto the in-flight heaps, then mute their partitions if order is
     * guaranteed. A push that meets a batch created at the same time raises; by then its batch
     * is in the heap, the later ones are not, and nothing is muted.
     */
    method RegisterDrained(lists: seq<seq<nat>>, ghost s: State) returns (ok: bool, ghost k: nat)
      requires Shows(s) && forall i :: i in Concat(lists) ==> i < |s.batches|
      modifies this`inFlight, this`drained, accumulator`muted
      ensures ok <==> NoTieIn(s.batches, s.inFlight, Concat(lists))
      ensures ok ==> Shows(Register(config, s, Concat(lists)))
      ensures !ok ==> k < |Concat(lists)| && TieAt(s.batches, s.inFlight, Concat(lists), k)
      ensures !ok ==> Shows(s.(inFlight := s.inFlight + IdSet(Concat(lists)[..k + 1])))
    {
      var ids := Concat(lists);
      ok, k := PushAll(ids, s);
      if ok {
        MuteAll(ids, s);
        drained := drained + IdSet(ids);
      }
    }

    method PushAll(ids: seq<nat>, ghost s: State) returns (ok: bool, ghost k: nat)
      requires Shows(s) && forall i :: i in ids ==> i < |s.batches|
      modifies this`inFlight
      ensures ok <==> NoTieIn(s.batches, s.inFlight, ids)
      ensures ok ==> inFlight == s.inFlight + IdSet(ids)
      ensures !ok ==> k < |ids| && TieAt(s.batches, s.inFlight, ids, k)
      ensures !ok ==> inFlight == s.inFlight + IdSet(ids[..k + 1])
    {
      k := 0;
      for j := 0 to |ids|
        invariant inFlight == s.inFlight + IdSet(ids[..j])
        invariant NoTieIn(s.batches, s.inFlight, ids[..j])
      {
        var i := ids[j];
        var tied := TiesIn(accumulator.batches, inFlight, i);
        assert ids[..j + 1] == ids[..j] + [i] && i in ids;
        OneMoreId(s.batches, ids[..j], i);
        NoTieMore(s.batches, s.inFlight, ids, j);
        inFlight := inFlight + {i};
        if tied {
          k := j;
          return false, k;
        }
      }
      assert ids[..|ids|] == ids;
      return true, 0;
    }

    method MuteAll(ids: seq<nat>, ghost s: State)
      requires accumulator.batches == s.batches && accumulator.muted == s.muted && forall i :: i in ids ==>
               i < |s.batches|
      modifies accumulator`muted
      ensures accumulator.muted == if config.guaranteeMessageOrder then s.muted + PartitionsOf(s.batches, ids)
              else s.muted
    {
      if !config.guaranteeMessageOrder { return; }
      for j := 0 to |ids|
        invariant accumulator.muted == s.muted + PartitionsOf(s.batches, ids[..j])
      {
        assert ids[..j + 1] == ids[..j] + [ids[j]] && ids[j] in ids;
        OneMoreId(s.batches, ids[..j], ids[j]);
        accumulator.muted := accumulator.muted + {accumulator.batches[ids[j]].tp};
      }
      assert ids[..|ids|] == ids;
    }

    /** The oldest batch of a heap. */
    method HeapHead(heap: set<nat>) returns (i: nat)
      requires heap != {} && forall j :: j in heap ==> j < |accumulator.batches|
      ensures i in heap && forall j :: j in heap ==> accumulator.batches[i].created <= accumulator.batches[j].created
    {
      i :| i in heap;
      var todo := heap - {i};
      while todo != {}
        invariant i in heap && todo <= heap
        invariant forall j :: j in heap && j !in todo ==>
                  accumulator.batches[i].created <= accumulator.batches[j].created
        decreases |todo|
      {
        var j :| j in todo;
        todo := todo - {j};
        if accumulator.batches[j].created < accumulator.batches[i].created { i := j; }
      }
    }

    /** Pop the oldest batch of a heap; it cannot be final already. */
    method PopOldest(tp: TopicPartition, i: nat, now: int, ghost s0: State, ghost s: State, found: seq<nat>)
      returns (ghost s': State)
      requires Shows(s) && ReachableState(config, s0) && !Tie(s0) && TakenOut(config, s0, s, found)
      requires i in HeapOf(s, tp)
      requires Enabled(config, s, ExpireInFlight(i, now))
      modifies this`inFlight, this`expired, this`resetDue
      ensures Shows(s') && HeapsPopped(s, s') && PopsOne(s, s', tp, i) && TakenOut(config, s0, s', found + [i])
      ensures s.batches[i].final.None?
    {
      InFlightExpires(config, s0, s, found, i, now);
      inFlight := inFlight - {i};
      expired := expired + {i};
      resetDue := ResetDue(config, s, i);
      s' := s.(inFlight := s.inFlight - {i}, expired := s.expired + {i}, resetDue := ResetDue(config, s, i));
      PopKeepsHeaps(s, s', tp, i);
    }

    /** Pop the oldest batch of a heap if it has expired, else note its deadline. */
    method ExpireOldest(tp: TopicPartition, heap: set<nat>, now: int, ghost s0: State, ghost s: State, found: seq<nat>)
      returns (gone: Option<nat>, ghost s': State)
      requires Shows(s) && ReachableState(config, s0) && !Tie(s0) && TakenOut(config, s0, s, found) && heap != {}
      requires heap == HeapOf(s, tp)
      modifies this`inFlight, this`expired, this`resetDue, accumulator`nextExpiry
      ensures Shows(s')
      ensures gone.Some? ==> gone.value in heap && HeapsPopped(s, s') && PopsOne(s, s', tp, gone.value)
      ensures gone.Some? ==>
              TakenOut(config, s0, s', found + [gone.value]) && accumulator.nextExpiry == old(accumulator.nextExpiry)
      ensures gone.Some? ==>
              s.batches[gone.value].final.None? && s.batches[gone.value].Expired(config.deliveryTimeout, now)
      ensures gone.None? ==> s' == s && HeapsScanned(config, s, accumulator.nextExpiry, iset{tp}, now)
      ensures gone.None? ==> Earlier(accumulator.nextExpiry, old(accumulator.nextExpiry))
      ensures gone.None? ==>
              accumulator.nextExpiry == old(accumulator.nextExpiry)
                || DueInHeapOf(config, s, tp, accumulator.nextExpiry)
    {
      var i := HeapHead(heap);
      if config.deliveryTimeout <= now - accumulator.batches[i].created {
        s' := PopOldest(tp, i, now, s0, s, found);
        gone := Some(i);
      } else {
        accumulator.MaybeUpdateNextBatchExpiryTime(accumulator.batches[i].created);
        OldestCoversHeap(config, s, accumulator.nextExpiry, tp, i, now);
        gone, s' := None, s;
      }
    }

    /** One heap of _get_expired_inflight_batches: pop while the oldest has expired. */
    method ExpireHeap(tp: TopicPartition, now: int, ghost s0: State, ghost s: State, expired0: seq<nat>)
      returns (found: seq<nat>, ghost s': State)
      requires Shows(s) && ReachableState(config, s0) && !Tie(s0) && TakenOut(config, s0, s, expired0)
      modifies this`inFlight, this`expired, this`resetDue, accumulator`nextExpiry
      ensures Shows(s') && TakenOut(config, s0, s', found)
      ensures HeapsPopped(s, s')
      ensures HeapsScanned(config, s', accumulator.nextExpiry, iset{tp}, now)
      ensures Earlier(accumulator.nextExpiry, old(accumulator.nextExpiry))
      ensures RecordAccumulator.OnlyExpired(config, s.batches, expired0, found, now)
      ensures accumulator.nextExpiry == old(accumulator.nextExpiry)
              || DueInHeapOf(config, s', tp, accumulator.nextExpiry)
      ensures forall t: TopicPartition :: t != tp ==> HeapOf(s', t) == HeapOf(s, t)
    {
      found, s' := expired0, s;
      var heap := set i | i in inFlight && i < |accumulator.batches| && accumulator.batches[i].tp == tp;
      assert heap == HeapOf(s, tp);
      while heap != {}
        invariant Shows(s') && TakenOut(config, s0, s', found) && accumulator.nextExpiry == old(accumulator.nextExpiry)
        invariant HeapsPopped(s, s')
        invariant heap == HeapOf(s', tp) && forall t: TopicPartition :: t != tp ==> HeapOf(s', t) == HeapOf(s, t)
        invariant RecordAccumulator.OnlyExpired(config, s.batches, expired0, found, now)
        decreases |heap|
      {
        var gone;
        gone, s' := ExpireOldest(tp, heap, now, s0, s', found);
        if gone.None? { return; }
        found, heap := found + [gone.value], heap - {gone.value};
      }
      EmptyHeapIsScanned(config, s', accumulator.nextExpiry, tp, now);
    }

    /** One more heap of _get_expired_inflight_batches. */
    method ScanHeap(tp: TopicPartition, now: int, ghost s0: State, ghost s: State, expired0: seq<nat>,
            ghost scanned: iset<TopicPartition>,
            ghost was: Option<int>)
      returns (found: seq<nat>, ghost s': State)
      requires Shows(s) && ReachableState(config, s0) && !Tie(s0) && TakenOut(config, s0, s, expired0) && tp !in scanned
      requires HeapsScanned(config, s, accumulator.nextExpiry, scanned, now)
      requires DueInScanned(config, s, scanned, was, accumulator.nextExpiry)
      modifies this`inFlight, this`expired, this`resetDue, accumulator`nextExpiry
      ensures Shows(s') && TakenOut(config, s0, s', found) && HeapsPopped(s, s')
      ensures HeapsScanned(config, s', accumulator.nextExpiry, scanned + iset{tp}, now)
      ensures Earlier(accumulator.nextExpiry, old(accumulator.nextExpiry))
      ensures DueInScanned(config, s', scanned + iset{tp}, was, accumulator.nextExpiry)
      ensures RecordAccumulator.OnlyExpired(config, s.batches, expired0, found, now)
    {
      ghost var next := accumulator.nextExpiry;
      found, s' := ExpireHeap(tp, now, s0, s, expired0);
      OneHeapMore(config, s, s', next, accumulator.nextExpiry, scanned, tp, now);
      OneHeapDue(config, s, s', scanned, tp, was, next, accumulator.nextExpiry);
    }

    /** _get_expired_inflight_batches, over all heaps. */
    method ExpiredInFlight(now: int, ghost s0: State, ghost s: State, expired0: seq<nat>)
      returns (found: seq<nat>, ghost s': State)
      requires Shows(s) && ReachableState(config, s0) && !Tie(s0) && TakenOut(config, s0, s, expired0)
      modifies this`inFlight, this`expired, this`resetDue, accumulator`nextExpiry
      ensures Shows(s') && TakenOut(config, s0, s', found)
      ensures HeapsPopped(s, s')
      ensures HeapsScanned(config, s', accumulator.nextExpiry, EVERYWHERE, now)
      ensures Earlier(accumulator.nextExpiry, old(accumulator.nextExpiry))
      ensures RecordAccumulator.OnlyExpired(config, s.batches, expired0, found, now)
      ensures accumulator.nextExpiry == old(accumulator.nextExpiry) || DueInHeap(config, s', accumulator.nextExpiry)
    {
      found, s' := expired0, s;
      TakenOutIsOk(config, s0, s, expired0);
      var todo := set i | i in inFlight :: accumulator.batches[i].tp;
      ghost var was := accumulator.nextExpiry;
      NoHeapElsewhere(config, s, was, todo, now);
      while todo != {}
        invariant Shows(s') && TakenOut(config, s0, s', found) && HeapsPopped(s, s')
        invariant HeapsScanned(config, s', accumulator.nextExpiry, AllBut(todo), now)
        invariant todo == {} ==> HeapsScanned(config, s', accumulator.nextExpiry, EVERYWHERE, now)
        invariant Earlier(accumulator.nextExpiry, was)
        invariant DueInScanned(config, s', AllBut(todo), was, accumulator.nextExpiry)
        invariant RecordAccumulator.OnlyExpired(config, s.batches, expired0, found, now)
        decreases |todo|
      {
        var tp :| tp in todo;
        OneLess(todo, tp);
        found, s' := ScanHeap(tp, now, s0, s', found, AllBut(todo), was);
        todo := todo - {tp};
      }
      DueIsDue(config, s', AllBut(todo), was, accumulator.nextExpiry);
    }

    /** Fail every expired batch with a timeout error. */
    method FailExpiredBatches(found: seq<nat>, ghost s: State) returns (ghost s': State, ghost es: seq<Event>)
      requires Shows(s) && ReachableState(config, s) && Distinct(found) && s.expired == IdSet(found)
      modifies this`expired, this`completed, this`inFlight, accumulator`batches, accumulator`incomplete
      modifies transactionManager`producerId, transactionManager`sequences, transactionManager`fatal
      ensures Shows(s') && Failing(config, s, es, s', found, |found|)
    {
      StartFailing(config, s, found);
      s', es := s, [];
      for k := 0 to |found|
        invariant Shows(s') && Failing(config, s, es, s', found, k)
      {
        ExpiredFails(config, s, es, s', found, k);
        ghost var e := FailExpired(found[k]);
        expired := expired - {found[k]};
        var ok := FailBatch(found[k], TIMEOUT_ERROR, s'.(expired := s'.expired - {found[k]}));
        s', es := Step(config, s', e).value, es + [e];
      }
    }

    /** s1 is s after the run es, and is what the objects show. */
    ghost predicate Reached(s: State, es: seq<Event>, s1: State)
      reads this, accumulator, transactionManager
    {
      ValidRun(config, s, es) && Run(config, s, es) == Returns(s1) && Shows(s1)
    }

    lemma JoinRuns(s: State, es: seq<Event>, s1: State, fs: seq<Event>)
      requires ReachableState(config, s) && ValidRun(config, s, es) && Run(config, s, es) == Returns(s1)
      requires ValidRun(config, s1, fs)
      ensures ValidRun(config, s, es + fs) && Run(config, s, es + fs) == Run(config, s1, fs)
    {
      ReachableKeepsInvariant(config, s);
      RunAppend(config, s, es, fs);
    }

    /** Every node of the list gets a batch of one of its partitions, unless sending is held back. */
    ghost predicate NodesServed(s: State, cluster: Cluster, nodes: seq<int>, ids: seq<nat>)
      reads this
    {
      MaySend(config, s) ==> forall k :: 0 <= k < |nodes| ==> Served(s, cluster, nodes[k], ids)
    }

    /** Drain the given nodes, each of which has a sendable batch, and register what was drained. */
    method DrainAndRegister(nodes: seq<int>, cluster: Cluster, maxSize: nat, now: int, ghost forced: bool,
            ghost s: State)
      returns (ok: bool, ids: seq<nat>, ghost s1: State, ghost es: seq<Event>)
      requires Shows(s) && ReachableState(config, s) && s.expired == {} && !s.resetDue && cluster.Indexed()
      requires Distinct(nodes) && !Tie(s)
      requires AllReady(config, s, forced, cluster, now, nodes)
      modifies this`inFlight, this`drained, accumulator`batches, accumulator`queues, accumulator`drainIndex,
        accumulator`muted
      modifies transactionManager`sequences
      ensures ok ==> Reached(s, es, s1) && s1.expired == {} && s1.drained == s.drained + IdSet(ids)
      ensures ok ==> Apart(s1.batches, ids) && DrainOnly(s, s1) && !Tie(s1) && NoTieIn(s.batches, s.inFlight, ids)
      ensures NodesServed(s, cluster, nodes, ids)
      ensures !ok ==> Shows(s1) && CutShort(s, ids, s1)
      ensures config.guaranteeMessageOrder ==> ok
    {
      var lists;
      ghost var orders;
      ReachableKeepsInvariant(config, s);
      var parts := seq(|nodes|, k requires 0 <= k < |nodes| => cluster.partitionsFor(nodes[k]));
      IndexedParts(cluster, nodes, parts);
      lists, orders := accumulator.Drain(parts, NO_STOP, maxSize, now, s);
      ids := Concat(lists);
      OrdersFromParts(cluster, nodes, parts, orders);
      RoundIsDone(config, s, forced, cluster, nodes, orders, maxSize, now);
      ghost var k;
      ghost var r := DrainOrders(config, s, orders, NO_STOP, maxSize, now);
      ok, k := RegisterDrained(lists, r.state);
      s1 := if ok then Register(config, r.state, ids) else r.state.(inFlight := s.inFlight + IdSet(ids[..k + 1]));
      es := RoundEvents(config, s, orders, NO_STOP, maxSize, now);
      RoundEnds(config, s, cluster, nodes, orders, maxSize, now, ok, k);
    }

    /** Both expiry scans find only expired batches. */
    method ScanForExpired(now: int, later: int, ghost s: State) returns (found: seq<nat>, ghost s1: State)
      requires Shows(s) && ReachableState(config, s) && s.expired == {} && !s.resetDue && now <= later && !Tie(s)
      modifies this`inFlight, this`expired, this`resetDue, accumulator`batches, accumulator`queues,
        accumulator`nextExpiry
      ensures Shows(s1) && TakenOut(config, s, s1, found)
      ensures Timely(config, s1, accumulator.nextExpiry, now, later)
      ensures RecordAccumulator.OnlyExpired(config, s.batches, [], found, later)
    {
      accumulator.ResetNextBatchExpiryTime();
      found, s1 := accumulator.ExpiredBatches(now, s);
      expired := expired + IdSet(found);
      TakenOutMarks(config, s, s1, found);
      resetDue := s1.resetDue;
      ghost var s2, next := s1, accumulator.nextExpiry;
      found, s1 := ExpiredInFlight(later, s, s1, found);
      ScannedStays(config, s2, s1, next, accumulator.nextExpiry, now);
      if accumulator.nextExpiry == next && next.Some? { HeadStaysDue(config, s2, s1, next); }
    }

    /**
     * Both expiry scans, and the failing of what they found; tells whether a resent batch was
     * among it, which is when a reset is due. Exactly the expired batches are failed, and the
     * next expiry time is in time.
     */
    method Expire(now: int, later: int, ghost s: State)
      returns (resentExpired: bool, ghost s1: State, ghost es: seq<Event>)
      requires Shows(s) && ReachableState(config, s) && s.expired == {} && !s.resetDue && now <= later && !Tie(s)
      modifies this`inFlight, this`expired, this`resetDue, this`completed, accumulator`batches, accumulator`queues,
        accumulator`incomplete, accumulator`nextExpiry
      modifies transactionManager`producerId, transactionManager`sequences, transactionManager`fatal
      ensures Reached(s, es, s1) && s1.expired == {} && s1.drained == s.drained && s1.sends == s.sends
      ensures Timely(config, s1, accumulator.nextExpiry, now, later)
      ensures FailsOnlyExpired(config, s, s1, later)
      ensures resentExpired <==> ResentCompleted(s, s1)
      ensures s1.resetDue <==> config.idempotent && resentExpired
    {
      ghost var s2, es3;
      var found;
      found, s2 := ScanForExpired(now, later, s);
      ghost var es2 :| Expiring(config, s, es2, s2, found);
      resentExpired := AnyResent(accumulator.batches, found);
      TakenOutMarks(config, s, s2, found);
      ReachableGoesOn(config, s, es2, s2);
      s1, es3 := FailExpiredBatches(found, s2);
      FailingStaysTimely(config, s2, es3, s1, found, accumulator.nextExpiry, now, later);
      FailingFailsFound(config, s, es2, s2, es3, s1, found, later);
      FoundAreFailed(config, s, es2, s2, es3, s1, found);
      es := es2 + es3;
    }

    /** Hand one produce request per drained batch to the network. */
    method SendRequests(ids: seq<nat>, ghost s: State) returns (ghost s1: State, ghost es: seq<Event>)
      requires Shows(s) && ReachableState(config, s) && !s.resetDue && Distinct(ids) && s.drained == IdSet(ids)
      modifies this`drained, this`awaiting, this`sends
      ensures Shows(s1) && Sending(config, s, es, s1, ids, |ids|)
    {
      StartSending(config, s, ids);
      s1, es := s, [];
      for k := 0 to |ids|
        invariant Shows(s1) && Sending(config, s, es, s1, ids, k)
      {
        OneMoreSent(config, s, es, s1, ids, k);
        drained, awaiting, sends := drained - {ids[k]}, awaiting + {ids[k]}, sends + [ids[k]];
        s1, es := Step(config, s1, Send(ids[k])).value, es + [Send(ids[k])];
      }
    }

    /** Which of the ready nodes are connected. */
    method ConnectedNodes(ready: set<int>, connected: int -> bool) returns (nodes: seq<int>)
      ensures Distinct(nodes) && forall n :: n in nodes <==> n in ready && connected(n)
    {
      nodes := [];
      var todo := ready;
      while todo != {}
        invariant todo <= ready && Distinct(nodes) && forall n :: n in nodes <==>
                  n in ready && n !in todo && connected(n)
        decreases |todo|
      {
        var n := Next(todo);
        todo := todo - {n};
        if connected(n) { nodes := nodes + [n]; }
      }
    }

    /** The end of a round: drop the producer id and give the round up, or send one request per drained batch. */
    method SendOrReset(reset: bool, ids: seq<nat>, ghost s: State) returns (ghost s1: State, ghost es: seq<Event>)
      requires Shows(s) && ReachableState(config, s) && s.drained == IdSet(ids) && Distinct(ids) && s.expired == {}
      requires s.resetDue <==> config.idempotent && reset
      modifies this`drained, this`awaiting, this`sends, this`resetDue, transactionManager`producerId,
        transactionManager`sequences
      ensures Reached(s, es, s1)
      ensures config.idempotent && reset ==> s1 == ResetProducerId(s).(drained := {}, resetDue := false)
      ensures !(config.idempotent && reset) ==>
                s1 == s.(drained := {}, awaiting := s.awaiting + IdSet(ids), sends := s.sends + ids)
    {
      if config.idempotent && reset {
        ReachableKeepsInvariant(config, s);
        assert Run(config, s, []) == Returns(s) && ValidRun(config, s, []);
        RunOneMore(config, s, [], s, ResetPid);
        transactionManager.ResetProducerId();
        drained, resetDue := {}, false;
        s1, es := ResetProducerId(s).(drained := {}, resetDue := false), [] + [ResetPid];
      } else {
        s1, es := SendRequests(ids, s);
        assert ids[|ids|..] == [] && ids[..|ids|] == ids;
      }
    }

    /** First half of a round: drain the ready and connected nodes. */
    method DrainReady(cluster: Cluster, connected: int -> bool, maxSize: nat, now: int, ghost s: State)
      returns (ok: bool, ids: seq<nat>, ghost forced: bool, ghost nodes: seq<int>, ghost s1: State,
            ghost es: seq<Event>)
      requires Shows(s) && ReachableState(config, s) && s.expired == {} && !s.resetDue && s.drained == {} && !Tie(s)
      requires cluster.Indexed()
      modifies this`inFlight, this`drained, accumulator`batches, accumulator`queues, accumulator`drainIndex,
        accumulator`muted
      modifies transactionManager`sequences
      ensures ok ==> Reached(s, es, s1) && ReachableState(config, s1) && s1.expired == {} && s1.drained == IdSet(ids)
      ensures ok ==> Distinct(ids) && DrainOnly(s, s1) && !Tie(s1) && NoTieIn(s.batches, s.inFlight, ids)
      ensures NodesServed(s, cluster, nodes, ids)
      ensures !ok ==> Shows(s1) && CutShort(s, ids, s1)
      ensures config.guaranteeMessageOrder ==> ok
      ensures (forced <==> old(accumulator.Forced())) && ListsReady(config, s, forced, cluster, connected, now, nodes)
    {
      ReachableKeepsInvariant(config, s);
      var readyNodes, nextReadyCheck, unknownLeaders := accumulator.Ready(cluster.leaderFor, now, s);
      var list := ConnectedNodes(readyNodes, connected);
      nodes := list;
      forced := accumulator.Forced();
      ListedAreReady(config, s, forced, cluster, connected, now, readyNodes, nextReadyCheck, unknownLeaders, nodes);
      ok, ids, s1, es := DrainAndRegister(list, cluster, maxSize, now, forced, s);
      if ok {
        assert IdSet(ids) == s1.drained;
        ReachableGoesOn(config, s, es, s1);
      }
    }

    /** Second half: expire, then send or give the round up. */
    method ExpireAndSend(ids: seq<nat>, now: int, later: int, ghost s: State)
      returns (reset: bool, ghost s1: State, ghost es: seq<Event>)
      requires Shows(s) && ReachableState(config, s) && s.expired == {} && !s.resetDue && !Tie(s)
      requires s.drained == IdSet(ids) && Distinct(ids) && now <= later
      modifies this`inFlight, this`drained, this`awaiting, this`expired, this`sends, this`completed, this`resetDue
      modifies accumulator`batches, accumulator`queues, accumulator`incomplete, accumulator`nextExpiry
      modifies transactionManager`producerId, transactionManager`sequences, transactionManager`fatal
      ensures Reached(s, es, s1) && s1.expired == {} && !s1.resetDue && s1.drained == {}
      ensures Timely(config, s1, accumulator.nextExpiry, now, later) && FailsOnlyExpired(config, s, s1, later)
      ensures reset <==> config.idempotent && ResentCompleted(s, s1)
      ensures reset ==> s1.producerId.None? && s1.sends == s.sends
      ensures !reset ==> s1.sends == s.sends + ids
    {
      ghost var s2, es1, es2;
      var resent;
      resent, s2, es1 := Expire(now, later, s);
      ReachableGoesOn(config, s, es1, s2);
      s1, es2 := SendOrReset(resent, ids, s2);
      JoinRuns(s, es1, s2, es2);
      es := es1 + es2;
      reset := config.idempotent && resent;
      ScannedStays(config, s2, s1, accumulator.nextExpiry, accumulator.nextExpiry, now);
      AttainedStays(config, s2, s1, accumulator.nextExpiry);
    }

    /**
     * _send_producer_data: drain, register, expire, then either drop the producer id and give
     * the round up, or send. Whatever it does is a run of the pipeline, so it raises nothing
     * and keeps every invariant; `later` is the clock when the in-flight heaps are scanned.
     * Every ready and connected node has a batch among the drained ones, and these are sent
     * unless a resend expired in this round.
     */
    method SendProducerData(cluster: Cluster, connected: int -> bool, maxSize: nat, now: int, later: int,
            ghost s: State)
      returns (ok: bool, ids: seq<nat>, reset: bool, ghost forced: bool, ghost nodes: seq<int>, ghost s0: State,
            ghost s1: State, ghost es: seq<Event>)
      requires Shows(s) && ReachableState(config, s) && s.expired == {} && !s.resetDue && s.drained == {} && !Tie(s)
      requires cluster.Indexed() && now <= later
      modifies this, accumulator, transactionManager
      ensures (forced <==> old(accumulator.Forced())) && ListsReady(config, s, forced, cluster, connected, now, nodes)
      ensures NodesServed(s, cluster, nodes, ids)
      ensures ok <==> NoTieIn(s.batches, s.inFlight, ids)
      ensures config.guaranteeMessageOrder ==> ok
      ensures !ok ==> Shows(s1) && CutShort(s, ids, s1)
      ensures ok ==> Reached(s, es, s1) && ReachableState(config, s1) && s1.expired == {} && !s1.resetDue
      ensures ok ==> s1.drained == {} && Timely(config, s1, accumulator.nextExpiry, now, later)
      ensures ok ==> DrainOnly(s, s0) && FailsOnlyExpired(config, s0, s1, later)
      ensures ok ==> (reset <==> config.idempotent && ResentCompleted(s0, s1))
      ensures ok ==> if reset then s1.producerId.None? && s1.sends == s.sends else s1.sends == s.sends + ids
    {
      ghost var es1, es2;
      ok, ids, forced, nodes, s0, es1 := DrainReady(cluster, connected, maxSize, now, s);
      if !ok {
        reset, s1, es := false, s0, [];
        return;
      }
      reset, s1, es2 := ExpireAndSend(ids, now, later, s0);
      JoinRuns(s, es1, s0, es2);
      es := es1 + es2;
      ReachableGoesOn(config, s, es, s1);
    }
  }

  /** Exactly the nodes with a sendable batch that are connected are listed. */
  ghost predicate ListsReady(c: Config, s: State, forced: bool, cluster: Cluster, connected: int -> bool, now: int,
          nodes: seq<int>)
  {
    && (forall k :: 0 <= k < |nodes| ==>
          ReadyNode(c, s, forced, cluster.leaderFor, s.queues.Keys, now, nodes[k]) && connected(nodes[k]))
    && (forall n {:trigger ReadyNode(c, s, forced, cluster.leaderFor, s.queues.Keys, now, n)} ::
          ReadyNode(c, s, forced, cluster.leaderFor, s.queues.Keys, now, n) && connected(n) ==> n in nodes)
  }

  ghost predicate AllReady(c: Config, s: State, forced: bool, cluster: Cluster, now: int, nodes: seq<int>) {
    forall k :: 0 <= k < |nodes| ==> ReadyNode(c, s, forced, cluster.leaderFor, s.queues.Keys, now, nodes[k])
  }

  lemma ListedAreReady(c: Config, s: State, forced: bool, cluster: Cluster, connected: int -> bool, now: int,
          ready: set<int>, check: int, unknown: bool, nodes: seq<int>)
    requires Answers(c, s, forced, cluster.leaderFor, s.queues.Keys, now, ready, check, unknown)
    requires forall n :: n in nodes <==> n in ready && connected(n)
    ensures ListsReady(c, s, forced, cluster, connected, now, nodes) && AllReady(c, s, forced, cluster, now, nodes)
  {
    forall k | 0 <= k < |nodes|
      ensures ReadyNode(c, s, forced, cluster.leaderFor, s.queues.Keys, now, nodes[k]) && connected(nodes[k])
    {
      assert nodes[k] in nodes;
    }
  }

  /** Draining moves batches, stamps and closes them, and does nothing else. */
  ghost predicate DrainOnly(s: State, s1: State) {
    && s1 == s.(batches := s1.batches, queues := s1.queues, sequences := s1.sequences, inFlight := s1.inFlight,
                drained := s1.drained, muted := s1.muted)
    && |s1.batches| == |s.batches|
  }

  /** The node leads the partition of one of the batches. */
  ghost predicate Served(s: State, cluster: Cluster, n: int, ids: seq<nat>) {
    exists k :: 0 <= k < |ids| && ids[k] < |s.batches| && cluster.leaderFor(s.batches[ids[k]].tp) == Some(n)
  }

  /** One batch is gone from the heap of the partition, and the others are as they were. */
  ghost predicate PopsOne(s: State, s': State, tp: TopicPartition, i: nat) {
    HeapOf(s', tp) == HeapOf(s, tp) - {i} && forall t: TopicPartition :: t != tp ==> HeapOf(s', t) == HeapOf(s, t)
  }

  lemma PopKeepsHeaps(s: State, s': State, tp: TopicPartition, i: nat)
    requires i in HeapOf(s, tp) && s'.batches == s.batches && s'.inFlight == s.inFlight - {i}
    ensures PopsOne(s, s', tp, i)
  {
  }

  lemma HeadStaysDue(c: Config, s: State, s1: State, next: Option<int>)
    requires DueAtHead(c, s, next) && s1.queues == s.queues && SameCreation(s, s1)
    ensures DueAtHead(c, s1, next)
  {
    var tp: TopicPartition :| Queue(s, tp) != [] && DueAt(c, s, next, Queue(s, tp)[0]);
    assert Queue(s1, tp) == Queue(s, tp) && DueAt(c, s1, next, Queue(s1, tp)[0]);
  }

  lemma {:induction false} ConcatHas(lists: seq<seq<nat>>, k: nat)
    requires k < |lists|
    ensures Concat(lists[..k + 1]) == Concat(lists[..k]) + lists[k]
    ensures forall i :: i in lists[k] ==> i in Concat(lists)
    decreases |lists|
  {
    var n := |lists| - 1;
    assert lists[..k + 1][..k] == lists[..k];
    if k < n {
      ConcatHas(lists[..n], k);
    } else {
      assert lists[..k + 1] == lists;
    }
  }

  lemma OneMoreId(bs: seq<Batch>, ids: seq<nat>, i: nat)
    requires i < |bs|
    ensures IdSet(ids + [i]) == IdSet(ids) + {i}
    ensures PartitionsOf(bs, ids + [i]) == PartitionsOf(bs, ids) + {bs[i].tp}
  {
    assert forall j :: j in ids + [i] <==> j in ids || j == i;
    assert i in ids + [i];
  }

  /** What the sender asks of the cluster metadata, with the agreement of its two indexes. */
  datatype Cluster = Cluster(leaderFor: TopicPartition -> Option<int>, partitionsFor: int -> seq<TopicPartition>)
  {
    ghost predicate Indexed() {
      && (forall n :: Distinct(partitionsFor(n)))
      && (forall n, tp :: tp in partitionsFor(n) <==> leaderFor(tp) == Some(n) && n != -1)
    }
  }

  lemma IndexedParts(cluster: Cluster, nodes: seq<int>, parts: seq<seq<TopicPartition>>)
    requires cluster.Indexed() && |parts| == |nodes| && forall k :: 0 <= k < |nodes| ==>
             parts[k] == cluster.partitionsFor(nodes[k])
    ensures forall k :: 0 <= k < |parts| ==> Distinct(parts[k])
  {
    forall k | 0 <= k < |parts| ensures Distinct(parts[k]) { IndexedNode(cluster, nodes[k]); }
  }

  lemma IndexedNode(cluster: Cluster, n: int)
    requires cluster.Indexed()
    ensures Distinct(cluster.partitionsFor(n))
  {
  }

  /** For each node an order of the partitions it leads. */
  ghost predicate OrdersOf(cluster: Cluster, nodes: seq<int>, orders: seq<seq<TopicPartition>>) {
    && |orders| == |nodes|
    && forall k :: 0 <= k < |nodes| ==> Distinct(orders[k]) && forall tp :: tp in orders[k] <==>
         tp in cluster.partitionsFor(nodes[k])
  }

  lemma OrdersFromParts(cluster: Cluster, nodes: seq<int>, parts: seq<seq<TopicPartition>>,
          orders: seq<seq<TopicPartition>>)
    requires |orders| == |parts| == |nodes| && forall k :: 0 <= k < |nodes| ==>
             parts[k] == cluster.partitionsFor(nodes[k])
    requires forall k :: 0 <= k < |parts| ==> Distinct(orders[k]) && forall tp :: tp in orders[k] <==> tp in parts[k]
    ensures OrdersOf(cluster, nodes, orders)
  {
  }

  /** A round: a run of drains after which every node is served, unless sending is held back. */
  ghost predicate RoundDone(c: Config, s: State, cluster: Cluster, nodes: seq<int>, ids: seq<nat>, s1: State,
          es: seq<Event>) {
    && ValidRun(c, s, es) && Run(c, s, es) == Returns(s1)
    && DrainOnly(s, s1) && s1.drained == s.drained + IdSet(ids) && Apart(s1.batches, ids)
    && (MaySend(c, s) ==> forall k :: 0 <= k < |nodes| ==> Served(s, cluster, nodes[k], ids))
  }

  /** Nothing of a transactional producer holds sending back. */
  const NO_STOP: TopicPartition -> bool := _ => false

  lemma RoundIsDone(c: Config, s: State, forced: bool, cluster: Cluster, nodes: seq<int>,
          orders: seq<seq<TopicPartition>>,
          maxSize: nat, now: int)
    requires cluster.Indexed() && Distinct(nodes) && OrdersOf(cluster, nodes, orders)
    requires AllReady(c, s, forced, cluster, now, nodes)
    requires ReachableState(c, s) && s.expired == {} && !s.resetDue
    ensures var r, es := DrainOrders(c, s, orders, NO_STOP, maxSize, now),
            RoundEvents(c, s, orders, NO_STOP, maxSize, now);
            var ids := Concat(r.lists);
            && (forall i :: i in ids ==> i < |r.state.batches|)
            && r.state == s.(batches := r.state.batches, queues := r.state.queues, sequences := r.state.sequences)
            && RoundDone(c, s, cluster, nodes, ids, Register(c, r.state, ids), es)
  {
    IndexedOrders(cluster, nodes, orders);
    RoundIsSound(c, s, orders, NO_STOP, maxSize, now);
    if MaySend(c, s) { RoundServes(c, s, forced, cluster, nodes, orders, maxSize, now); }
  }

  /** What the pushes of a round lead to. */
  lemma RoundEnds(c: Config, s: State, cluster: Cluster, nodes: seq<int>, orders: seq<seq<TopicPartition>>,
          maxSize: nat, now: int, ok: bool, k: nat)
    requires cluster.Indexed() && Distinct(nodes) && OrdersOf(cluster, nodes, orders) && !Tie(s)
    requires ReachableState(c, s) && s.expired == {} && !s.resetDue
    requires var r := DrainOrders(c, s, orders, NO_STOP, maxSize, now);
             var ids := Concat(r.lists);
             && (ok <==> NoTieIn(r.state.batches, s.inFlight, ids))
             && (!ok ==> k < |ids| && TieAt(r.state.batches, s.inFlight, ids, k))
    ensures var r := DrainOrders(c, s, orders, NO_STOP, maxSize, now);
            var ids := Concat(r.lists);
            && (ok ==> !Tie(Register(c, r.state, ids)) && NoTieIn(s.batches, s.inFlight, ids))
            && (!ok ==> CutShort(s, ids, r.state.(inFlight := s.inFlight + IdSet(ids[..k + 1]))))
    ensures c.guaranteeMessageOrder ==> ok
  {
    var r := DrainOrders(c, s, orders, NO_STOP, maxSize, now);
    var ids := Concat(r.lists);
    ReachableKeepsInvariant(c, s);
    IndexedOrders(cluster, nodes, orders);
    if ok {
      RoundKeepsRest(c, s, orders, NO_STOP, maxSize, now);
      RoundApart(c, s, orders, NO_STOP, maxSize, now);
      NoTieSame(s, r.state, s.inFlight, ids);
      NoTieComes(s, Register(c, r.state, ids), ids);
    } else {
      TieCutsShort(c, s, orders, NO_STOP, maxSize, now, k);
    }
  }

  lemma IndexedOrders(cluster: Cluster, nodes: seq<int>, orders: seq<seq<TopicPartition>>)
    requires cluster.Indexed() && Distinct(nodes) && OrdersOf(cluster, nodes, orders)
    ensures OrdersOk(orders)
  {
    forall k, l | 0 <= k < l < |orders| ensures forall tp :: tp in orders[k] ==> tp !in orders[l] {
      forall tp | tp in orders[k] ensures tp !in orders[l] {
        assert nodes[k] != nodes[l];
        assert tp in cluster.partitionsFor(nodes[k]);
        assert cluster.leaderFor(tp) == Some(nodes[k]);
      }
    }
  }

  /**
   * Ready implies drainable: with the metadata and clock of the ready() call, and nothing that
   * holds sending back, every node it reported gets at least one batch in the round.
   */
  lemma ReadyNodesAreDrained(c: Config, s: State, forced: bool, cluster: Cluster, nodes: seq<int>,
          orders: seq<seq<TopicPartition>>,
          maxSize: nat, now: int, k: nat)
    requires cluster.Indexed() && Distinct(nodes) && OrdersOf(cluster, nodes, orders) && k < |nodes|
    requires ReachableState(c, s) && MaySend(c, s)
    requires ReadyNode(c, s, forced, cluster.leaderFor, s.queues.Keys, now, nodes[k])
    ensures |DrainOrders(c, s, orders, NO_STOP, maxSize, now).lists| == |nodes|
    ensures DrainOrders(c, s, orders, NO_STOP, maxSize, now).lists[k] != []
  {
    ReachableKeepsInvariant(c, s);
    IndexedOrders(cluster, nodes, orders);
    var n := nodes[k];
    var tp :| tp in s.queues.Keys && cluster.leaderFor(tp) == Some(n) && n != -1 && ReadyToSend(c, s, forced, tp, now);
    assert tp in cluster.partitionsFor(n);
    EveryNodeDrains(c, s, orders, NO_STOP, maxSize, now, |orders| - 1, k, tp);
  }

  /** Every node of a round in which all are ready has a batch among the drained ones. */
  lemma RoundServes(c: Config, s: State, forced: bool, cluster: Cluster, nodes: seq<int>,
          orders: seq<seq<TopicPartition>>,
          maxSize: nat, now: int)
    requires cluster.Indexed() && Distinct(nodes) && OrdersOf(cluster, nodes, orders)
    requires ReachableState(c, s) && MaySend(c, s) && AllReady(c, s, forced, cluster, now, nodes)
    ensures forall k :: 0 <= k < |nodes| ==>
              Served(s, cluster, nodes[k], Concat(DrainOrders(c, s, orders, NO_STOP, maxSize, now).lists))
  {
    ReachableKeepsInvariant(c, s);
    IndexedOrders(cluster, nodes, orders);
    var lists := DrainOrders(c, s, orders, NO_STOP, maxSize, now).lists;
    forall k | 0 <= k < |nodes| ensures Served(s, cluster, nodes[k], Concat(lists)) {
      ReadyNodesAreDrained(c, s, forced, cluster, nodes, orders, maxSize, now, k);
      ListIsFromOrder(c, s, orders, NO_STOP, maxSize, now, k);
      var i := lists[k][0];
      ConcatHas(lists, k);
      assert i in lists[k] && i in Concat(lists);
      assert s.batches[i].tp in cluster.partitionsFor(nodes[k]);
      var m :| 0 <= m < |Concat(lists)| && Concat(lists)[m] == i;
    }
  }

  /** What is drained for a node are batches of its partitions. */
  lemma {:induction false} ListIsFromOrder(c: Config, s: State, orders: seq<seq<TopicPartition>>,
          stop: TopicPartition -> bool,
          maxSize: nat, now: int, k: nat)
    requires OrdersOk(orders) && k < |orders| && forall tp: TopicPartition :: QueueOk(s, tp)
    ensures var r := DrainOrders(c, s, orders, stop, maxSize, now);
            && |r.lists| == |orders|
            && forall m :: 0 <= m < |r.lists[k]| ==>
                 r.lists[k][m] < |s.batches| && s.batches[r.lists[k][m]].tp in orders[k]
    decreases |orders|
  {
    var n := |orders| - 1;
    OrdersPrefix(orders, n);
    RoundTakesHeads(c, s, orders[..n], stop, maxSize, now);
    if k < n {
      ListIsFromOrder(c, s, orders[..n], stop, maxSize, now, k);
    } else {
      var d := Drained(DrainOrders(c, s, orders[..n], stop, maxSize, now).state, [], 0);
      DrainTakesHeads(c, d, orders[n], stop, maxSize, now);
      var ready := DrainNode(c, d, orders[n], stop, maxSize, now).ready;
      assert ready[0..] == ready;
    }
  }

  /** All that the sender relies on when it registers a drained round. */
  lemma RoundIsSound(c: Config, s: State, orders: seq<seq<TopicPartition>>, stop: TopicPartition -> bool, maxSize: nat,
          now: int)
    requires ReachableState(c, s) && s.expired == {} && !s.resetDue && OrdersOk(orders)
    ensures var r, es := DrainOrders(c, s, orders, stop, maxSize, now), RoundEvents(c, s, orders, stop, maxSize, now);
            var ids := Concat(r.lists);
            && ValidRun(c, s, es) && Run(c, s, es) == Returns(Register(c, r.state, ids))
            && (forall e :: e in es ==> e.Drain?)
            && (forall i :: i in ids ==> i < |r.state.batches|) && Apart(r.state.batches, ids)
            && |r.state.batches| == |s.batches|
            && r.state == s.(batches := r.state.batches, queues := r.state.queues, sequences := r.state.sequences)
  {
    ReachableKeepsInvariant(c, s);
    RoundIsRun(c, s, orders, stop, maxSize, now);
    RoundTakesHeads(c, s, orders, stop, maxSize, now);
    RoundApart(c, s, orders, stop, maxSize, now);
    RoundKeepsRest(c, s, orders, stop, maxSize, now);
    RoundEventsAreDrains(c, s, orders, stop, maxSize, now);
  }

  lemma {:induction false} NodeEventsAreDrains(c: Config, d: Drained, parts: seq<TopicPartition>,
          stop: TopicPartition -> bool, maxSize: nat, now: int)
    ensures forall e :: e in DrainEvents(c, d, parts, stop, maxSize, now) ==> e.Drain?
    decreases |parts|
  {
    if parts != [] {
      if !Drainable(c, d.state, parts[0], now) {
        NodeEventsAreDrains(c, d, parts[1..], stop, maxSize, now);
      } else if Takes(c, d, parts[0], stop, maxSize, now) {
        NodeEventsAreDrains(c, Take(c, d, parts[0], now), parts[1..], stop, maxSize, now);
      }
    }
  }

  lemma {:induction false} RoundEventsAreDrains(c: Config, s: State, orders: seq<seq<TopicPartition>>,
          stop: TopicPartition -> bool, maxSize: nat, now: int)
    ensures forall e :: e in RoundEvents(c, s, orders, stop, maxSize, now) ==> e.Drain?
  {
    if orders != [] {
      var n := |orders| - 1;
      RoundEventsAreDrains(c, s, orders[..n], stop, maxSize, now);
      NodeEventsAreDrains(c, Drained(DrainOrders(c, s, orders[..n], stop, maxSize, now).state, [], 0), orders[n], stop,
        maxSize, now);
    }
  }
}
