/** The invariants of the pipeline over whole runs, and what they say to a user of the producer. */
module ProducerRuns {
  import opened Common
  import opened ProducerModel
  import opened ProducerInvariants
  import opened ProducerSequences

  ghost predicate Invariant(c: Config, s: State) {
    && Structure(s)
    && (c.guaranteeMessageOrder ==> Ordered(s))
    && (c.idempotent ==> Sequenced(s))
  }

  /** Nothing but the comparison of two tied batches raises, and every other step keeps the invariant. */
  lemma StepKeepsInvariant(c: Config, s: State, e: Event)
    requires Invariant(c, s) && Enabled(c, s, e)
    ensures Step(c, s, e).Returns? <==> !e.Compare?
    ensures Step(c, s, e).Returns? ==> Invariant(c, Step(c, s, e).value)
    ensures c.guaranteeMessageOrder ==> !e.Compare?
  {
    StepKeepsStructure(c, s, e);
    if c.guaranteeMessageOrder { StepKeepsOrder(c, s, e); }
    if c.idempotent { StepKeepsSequences(c, s, e); }
  }

  /** Some heap holds two batches created at the same time. */
  ghost predicate Tie(s: State) {
    exists i: nat, j: nat :: Tied(s, i, j)
  }

  /**
   * In every reachable state a step can raise exactly if some heap holds two batches created
   * at the same time, and then only for want of an order between them; under guaranteed
   * message order nothing raises.
   */
  lemma NothingRaises(c: Config, s: State)
    requires ReachableState(c, s)
    ensures Tie(s) <==> exists e :: Enabled(c, s, e) && Step(c, s, e).Raises?
    ensures forall e :: Enabled(c, s, e) && Step(c, s, e).Raises? ==> Step(c, s, e).error == HeapTie
    ensures c.guaranteeMessageOrder ==> !Tie(s)
  {
    ReachableKeepsInvariant(c, s);
    forall e | Enabled(c, s, e) ensures Step(c, s, e).Returns? <==> !e.Compare? { StepKeepsInvariant(c, s, e); }
    if Tie(s) {
      var i: nat, j: nat :| Tied(s, i, j);
      assert Enabled(c, s, Compare(i, j));
    }
    if c.guaranteeMessageOrder { NothingTies(s); }
  }

  /** The steps that a heap takes when it compares two tied batches. */
  ghost predicate NoTieMet(es: seq<Event>) {
    forall k :: 0 <= k < |es| ==> !es[k].Compare?
  }

  lemma {:induction false} RunKeepsInvariant(c: Config, s: State, es: seq<Event>)
    requires Invariant(c, s) && ValidRun(c, s, es)
    ensures Run(c, s, es).Returns? ==> Invariant(c, Run(c, s, es).value)
    ensures Run(c, s, es).Raises? ==> Run(c, s, es).error == HeapTie
    ensures NoTieMet(es) || c.guaranteeMessageOrder ==> Run(c, s, es).Returns?
    decreases es
  {
    if es != [] {
      StepKeepsInvariant(c, s, es[0]);
      if Step(c, s, es[0]).Returns? {
        assert NoTieMet(es) ==> NoTieMet(es[1..]);
        RunKeepsInvariant(c, Step(c, s, es[0]).value, es[1..]);
      }
    }
  }

  /** A run followed by another run. */
  lemma {:induction false} RunAppend(c: Config, s: State, es: seq<Event>, fs: seq<Event>)
    requires Invariant(c, s) && ValidRun(c, s, es) && Run(c, s, es).Returns? && ValidRun(c, Run(c, s, es).value, fs)
    ensures ValidRun(c, s, es + fs) && Run(c, s, es + fs) == Run(c, Run(c, s, es).value, fs)
    decreases es
  {
    if es == [] {
      assert es + fs == fs;
    } else {
      StepKeepsInvariant(c, s, es[0]);
      assert (es + fs)[1..] == es[1..] + fs;
      RunAppend(c, Step(c, s, es[0]).value, es[1..], fs);
    }
  }

  /** A run followed by one more step. */
  lemma RunOneMore(c: Config, s: State, es: seq<Event>, s1: State, e: Event)
    requires Invariant(c, s) && ValidRun(c, s, es) && Run(c, s, es) == Returns(s1) && Enabled(c, s1, e)
    requires !e.Compare?
    ensures Invariant(c, s1) && Step(c, s1, e).Returns? && Invariant(c, Step(c, s1, e).value)
    ensures ValidRun(c, s, es + [e]) && Run(c, s, es + [e]) == Step(c, s1, e)
  {
    RunKeepsInvariant(c, s, es);
    StepKeepsInvariant(c, s1, e);
    assert [e][1..] == [];
    assert ValidRun(c, Step(c, s1, e).value, []);
    assert Run(c, Step(c, s1, e).value, []) == Step(c, s1, e);
    assert ValidRun(c, s1, [e]) && Run(c, s1, [e]) == Step(c, s1, e);
    RunAppend(c, s, es, [e]);
  }

  /** The state at the end of some run. */
  ghost predicate ReachableState(c: Config, s: State) {
    exists es :: ValidRun(c, Initial(), es) && Run(c, Initial(), es) == Returns(s)
  }

  lemma ReachableKeepsInvariant(c: Config, s: State)
    requires ReachableState(c, s)
    ensures Invariant(c, s)
  {
    var es :| ValidRun(c, Initial(), es) && Run(c, Initial(), es) == Returns(s);
    RunKeepsInvariant(c, Initial(), es);
  }

  lemma ReachableGoesOn(c: Config, s: State, es: seq<Event>, s1: State)
    requires ReachableState(c, s) && ValidRun(c, s, es) && Run(c, s, es) == Returns(s1)
    ensures ReachableState(c, s1)
  {
    var fs :| ValidRun(c, Initial(), fs) && Run(c, Initial(), fs) == Returns(s);
    RunAppend(c, Initial(), fs, es);
  }

  lemma OneMoreStep(c: Config, s: State, es: seq<Event>, s1: State, e: Event)
    requires ReachableState(c, s) && ValidRun(c, s, es) && Run(c, s, es) == Returns(s1) && Enabled(c, s1, e)
    requires !e.Compare?
    ensures Step(c, s1, e).Returns? && ReachableState(c, Step(c, s1, e).value)
    ensures ValidRun(c, s, es + [e]) && Run(c, s, es + [e]) == Step(c, s1, e)
  {
    ReachableKeepsInvariant(c, s);
    RunOneMore(c, s, es, s1, e);
    ReachableGoesOn(c, s, es + [e], Step(c, s1, e).value);
  }

  function QueuedBatches(s: State): set<nat> {
    set i: nat | i < |s.batches| && Queued(s, i)
  }

  /**
   * Conservation: in every run, with or without ordering, retries, expiry and idempotence, up to
   * the comparison of two tied batches, if there is one: the incomplete set is the disjoint union
   * of queued and in-flight batches whenever no expiry scan is under way, and a batch is out of it
   * exactly when its future has been completed, which happens once.
   */
  lemma Conservation(c: Config, es: seq<Event>)
    requires ValidRun(c, Initial(), es)
    ensures c.guaranteeMessageOrder || NoTieMet(es) ==> Run(c, Initial(), es).Returns?
    ensures Run(c, Initial(), es).Returns? ==> Conserved(Run(c, Initial(), es).value)
  {
    RunKeepsInvariant(c, Initial(), es);
    if Run(c, Initial(), es).Returns? { StructureConserves(Run(c, Initial(), es).value); }
  }

  ghost predicate Conserved(s: State) {
    && QueuedBatches(s) !! s.inFlight
    && (s.expired == {} ==> s.incomplete == QueuedBatches(s) + s.inFlight)
    && (forall i: nat :: i in s.incomplete <==> i < |s.batches| && i !in s.completed)
    && (forall i: nat :: i in s.completed <==> i < |s.batches| && s.batches[i].final.Some?)
    && Distinct(s.completed)
  }

  lemma StructureConserves(s: State)
    requires Structure(s)
    ensures Conserved(s)
  {
    forall i: nat | i < |s.batches| ensures BatchOk(s, i) {}
    assert forall i: nat :: i in QueuedBatches(s) ==> BatchOk(s, i);
    if s.expired == {} {
      forall i: nat ensures i in s.incomplete <==> i in QueuedBatches(s) + s.inFlight {
        if i < |s.batches| { assert BatchOk(s, i); }
      }
    }
    forall i: nat ensures i in s.incomplete <==> i < |s.batches| && i !in s.completed {
      if i < |s.batches| { assert BatchOk(s, i); }
    }
    forall i: nat ensures i in s.completed <==> i < |s.batches| && s.batches[i].final.Some? {
      if i < |s.batches| { assert BatchOk(s, i); }
    }
  }

  /** i and j are batches of the same partition. */
  predicate Rivals(s: State, i: nat, j: nat) {
    i < |s.batches| && j < |s.batches| && s.batches[i].tp == s.batches[j].tp
  }

  /** Per-partition order in every run under guaranteed message order, retries, expiry and id resets included. */
  lemma PartitionOrder(c: Config, es: seq<Event>)
    requires c.guaranteeMessageOrder && ValidRun(c, Initial(), es)
    ensures Run(c, Initial(), es).Returns?
    ensures var s := Run(c, Initial(), es).value;
            // at most one batch of a partition is outstanding, and its partition is muted
            && (forall i: nat, j: nat :: Rivals(s, i, j) && Holds(s, i) && Holds(s, j) ==>
                  i == j && s.batches[i].tp in s.muted)
            // it is older than everything in the deque, and the deque is sorted
            && (forall i: nat, j: nat :: Rivals(s, i, j) && Holds(s, i) && Queued(s, j) ==>
                  i < j && s.batches[i].created <= s.batches[j].created)
            && (forall tp: TopicPartition :: Increasing(Queue(s, tp)))
            // requests leave in append order; only a resend repeats a batch
            && (forall a, b :: 0 <= a < b < |s.sends| && Rivals(s, s.sends[a], s.sends[b]) ==> s.sends[a] <= s.sends[b])
  {
    RunKeepsInvariant(c, Initial(), es);
    var s := Run(c, Initial(), es).value;
    forall i: nat, j: nat | Rivals(s, i, j) && Holds(s, i) && Holds(s, j) ensures i == j && s.batches[i].tp in s.muted {
      assert HolderOk(s, i);
    }
    forall i: nat, j: nat | Rivals(s, i, j) && Holds(s, i) && Queued(s, j)
      ensures i < j && s.batches[i].created <= s.batches[j].created
    {
      assert HolderOk(s, i);
    }
    forall a, b | 0 <= a < b < |s.sends| && Rivals(s, s.sends[a], s.sends[b]) ensures s.sends[a] <= s.sends[b] {
      assert SendOk(s, a);
    }
  }

  /**
   * In every run of an idempotent producer a partition's sequence number is the number of
   * records acknowledged under the current producer id, modulo 2^31.
   */
  lemma SequenceCountsAcks(c: Config, es: seq<Event>, tp: TopicPartition)
    requires c.idempotent && ValidRun(c, Initial(), es)
    ensures c.guaranteeMessageOrder || NoTieMet(es) ==> Run(c, Initial(), es).Returns?
    ensures Run(c, Initial(), es).Returns? ==>
              var s := Run(c, Initial(), es).value;
              s.producerId.Some? ==>
                && SequenceNumber(s, tp) == AckedRecords(s.batches, s.acks, tp, s.producerId.value) % SEQUENCE_SPACE
                && SequenceNumber(s, tp) <= MAX_SEQUENCE
  {
    RunKeepsInvariant(c, Initial(), es);
    if Run(c, Initial(), es).Returns? { assert SequenceOk(Run(c, Initial(), es).value, tp); }
  }

  /** What is written into a batch stays: producer id, sequence, records, and a final state. */
  predicate StaysWritten(b: Batch, b': Batch) {
    && (b.stamp.Some? ==> b'.stamp == b.stamp && b'.records == b.records)
    && (b.final.Some? ==> b'.final == b.final)
  }

  predicate AllStayWritten(s: State, s': State) {
    |s.batches| <= |s'.batches| && forall i :: 0 <= i < |s.batches| ==> StaysWritten(s.batches[i], s'.batches[i])
  }

  lemma DoneStaysWritten(s: State, i: nat, f: FinalState)
    requires i < |s.batches| && Done(s, i, f).Returns?
    ensures AllStayWritten(s, Done(s, i, f).value)
  {
  }

  lemma RespondStaysWritten(c: Config, s: State, e: Event)
    requires e.Respond? && Enabled(c, s, e) && Step(c, s, e).Returns?
    ensures AllStayWritten(s, Step(c, s, e).value)
  {
    if e.err.None? { AckStaysWritten(c, s, e); } else { ErrorStaysWritten(c, s, e); }
  }

  lemma AckStaysWritten(c: Config, s: State, e: Event)
    requires e.Respond? && e.err.None? && Enabled(c, s, e) && Step(c, s, e).Returns?
    ensures AllStayWritten(s, Step(c, s, e).value)
  {
    DoneStaysWritten(s.(awaiting := s.awaiting - {e.id}, acks := s.acks + [e.id]), e.id, Succeeded);
  }

  lemma ErrorStaysWritten(c: Config, s: State, e: Event)
    requires e.Respond? && e.err.Some? && Enabled(c, s, e) && Step(c, s, e).Returns?
    ensures AllStayWritten(s, Step(c, s, e).value)
  {
    var i, s0 := e.id, s.(awaiting := s.awaiting - {e.id});
    if !(CanRetry(c, s0.batches[i], e.err.value, e.now) && (c.idempotent ==> Match(s0, s0.batches[i]))) {
      DoneStaysWritten(NoteFailure(c, s0, i, e.err.value), i, Failed);
    }
  }

  lemma AppendStaysWritten(c: Config, s: State, e: Event)
    requires c.idempotent && Invariant(c, s) && e.Append? && Enabled(c, s, e)
    ensures AllStayWritten(s, Step(c, s, e).value)
  {
    assert QueueOk(s, e.tp);
    AppendIs(c, s, e);
    if JoinsLast(s, e.tp, e.room) { assert StampOk(s, Queue(s, e.tp)[|Queue(s, e.tp)| - 1]); }
  }

  lemma DrainStaysWritten(c: Config, s: State, e: Event)
    requires c.idempotent && Invariant(c, s) && e.Drain? && Enabled(c, s, e) && Step(c, s, e).Returns?
    ensures AllStayWritten(s, Step(c, s, e).value)
  {
    var h := Queue(s, e.tp)[0];
    assert QueueOk(s, e.tp) && BatchOk(s, h) && StampOk(s, h) && h in Queue(s, e.tp);
  }

  /** A retry keeps its producer id, sequence and records; a final state is never revised. */
  lemma WrittenIsForever(c: Config, s: State, e: Event)
    requires c.idempotent && Invariant(c, s) && Enabled(c, s, e)
    ensures Step(c, s, e).Returns? <==> !e.Compare?
    ensures Step(c, s, e).Returns? ==> AllStayWritten(s, Step(c, s, e).value)
  {
    StepKeepsInvariant(c, s, e);
    match e {
      case Append(_, _, _, _, _, _) => AppendStaysWritten(c, s, e);
      case Drain(_, _) => DrainStaysWritten(c, s, e);
      case Respond(_, _, _) => RespondStaysWritten(c, s, e);
      case FailExpired(i) => DoneStaysWritten(s.(expired := s.expired - {i}), i, Failed);
      case _ =>
    }
  }
}
