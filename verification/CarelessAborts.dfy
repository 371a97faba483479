/**
 * Why a transaction is not to be aborted while the request that commits it is pending: the
 * abort lets an EndTxn go out that does not fit the transaction, and nothing else does.
 */
module CarelessAborts {
  import opened Common
  import opened Transactions
  import opened TransactionSafety
  import opened TransactionOffsets

  /** A commit is requested for a transaction being aborted, or an abort outside of any transaction. */
  predicate Misplaced(s: Txn) {
    s.inFlight.Some? && s.inFlight.value.EndTxn? && !InPlace(s.phase, s.named, s.inFlight.value)
  }

  /** A run that is careful from here on can lead to it. */
  ghost predicate CanMisplace(s: Txn) {
    exists es :: ValidRun(true, s, es) && Misplaced(Run(true, s, es))
  }

  lemma MisplacesNow(s: Txn)
    requires Misplaced(s)
    ensures CanMisplace(s)
  {
    assert ValidRun(true, s, []) && Run(true, s, []) == s;
  }

  lemma MisplacesLater(s: Txn, e: Event)
    requires Enabled(true, s, e) && CanMisplace(Step(s, e))
    ensures CanMisplace(s)
  {
    var es :| ValidRun(true, Step(s, e), es) && Misplaced(Run(true, Step(s, e), es));
    assert ([e] + es)[0] == e && ([e] + es)[1..] == es;
    assert ValidRun(true, s, [e] + es) && Run(true, s, [e] + es) == Run(true, Step(s, e), es);
  }

  /** The queue ends with the commit, and nothing before it begins or ends a transaction. */
  ghost predicate EndsInCommit(q: seq<Handler>) {
    q != [] && q[|q| - 1] == EndTxn(true) && forall i :: 0 <= i < |q| - 1 ==> !Sole.Holds(q[i])
  }

  /** The transaction is being aborted with the commit still in front of the abort. */
  ghost predicate Overtaken(s: Txn, q: seq<Handler>) {
    s.phase == AbortingTransaction && s.newPartitions == {} && EndsInCommit(q) && s.queue == q + [EndTxn(false)]
  }

  /** The two EndTxn are left: the commit goes out, or is skipped and the abort goes out too late. */
  lemma LastTwoMisplace(s: Txn)
    requires Overtaken(s, [EndTxn(true)]) && s.inFlight.None? && s.incomplete == multiset{}
    ensures CanMisplace(s)
  {
    assert s.queue[0] == EndTxn(true) && s.queue[1..] == [EndTxn(false)];
    MisplacesNow(Step(s, Next));
    MisplacesLater(s, Next);
  }

  lemma HeadGoesOut(s: Txn, q: seq<Handler>)
    requires Overtaken(s, q) && s.inFlight.None? && |q| > 1
    ensures Step(s, Next) == s.(queue := q[1..] + [EndTxn(false)], inFlight := Some(q[0]))
    ensures Overtaken(Step(s, Next), q[1..])
  {
    assert s.queue[0] == q[0] && !Sole.Holds(q[0]) && s.queue[1..] == q[1..] + [EndTxn(false)];
  }

  /** A request that neither begins nor ends a transaction can be answered without pushing another. */
  lemma RefusalIs(s: Txn, h: Handler) returns (r: Reply)
    requires s.inFlight == Some(h) && !Sole.Holds(h) && s.phase == AbortingTransaction
    ensures Enabled(true, s, Respond(r))
    ensures var s1 := Step(s, Respond(r));
            s1 == s.(inFlight := None, pendingPartitions := s1.pendingPartitions, undone := s1.undone, lost := s1.lost,
                     offsets := s1.offsets)
  {
    if h.OffsetCommit? {
      var rs := Listing(h.offsets, false);
      ResultsStep(s, h, rs);
      r := Results(rs);
    } else {
      r := if h.FindCoordinator? then Success else Abortable;
    }
  }

  /** Requests in front of the commit are sent and refused. */
  lemma {:induction false} DrainMisplaces(s: Txn, q: seq<Handler>)
    requires Overtaken(s, q) && s.inFlight.None? && s.incomplete == multiset{}
    ensures CanMisplace(s)
    decreases |q|
  {
    if |q| == 1 {
      assert q == [EndTxn(true)];
      LastTwoMisplace(s);
    } else {
      HeadGoesOut(s, q);
      var s1 := Step(s, Next);
      assert !Sole.Holds(q[0]);
      var r := RefusalIs(s1, q[0]);
      var e := Respond(r);
      DrainMisplaces(Step(s1, e), q[1..]);
      MisplacesLater(s1, e);
      MisplacesLater(s, Next);
    }
  }

  /** The batches of the aborted transaction are dropped. */
  lemma {:induction false} BatchesMisplace(s: Txn, q: seq<Handler>)
    requires Overtaken(s, q) && s.inFlight.None?
    ensures CanMisplace(s)
    decreases |s.incomplete|
  {
    if s.incomplete == multiset{} {
      DrainMisplaces(s, q);
    } else {
      var tp :| tp in s.incomplete;
      BatchesMisplace(Step(s, BatchDropped(tp)), q);
      MisplacesLater(s, BatchDropped(tp));
    }
  }

  lemma AnswerMisplaces(s: Txn, q: seq<Handler>)
    requires Overtaken(s, q) && (s.inFlight.Some? ==> !Sole.Holds(s.inFlight.value))
    ensures CanMisplace(s)
  {
    if s.inFlight.Some? {
      var r := RefusalIs(s, s.inFlight.value);
      var e := Respond(r);
      BatchesMisplace(Step(s, e), q);
      MisplacesLater(s, e);
    } else {
      BatchesMisplace(s, q);
    }
  }

  /** A pending commit is at the end of the queue. */
  lemma {:induction false} CommitIsLast(q: seq<Handler>)
    requires Sorted(q) && EndTxn(true) in q && Count(Sole, q) <= 1
    ensures EndsInCommit(q)
  {
    PopKeepsOrder(q);
    if q[0] == EndTxn(true) {
      AllCounted(q[1..]);
    } else {
      IsCounted(Sole, q[1..], EndTxn(true));
      CommitIsLast(q[1..]);
      forall i | 0 <= i < |q| - 1 ensures !Sole.Holds(q[i]) {
        if i > 0 { assert q[i] == q[1..][i - 1]; }
      }
    }
  }

  lemma {:induction false} AbortGoesLast(q: seq<Handler>)
    ensures Enqueue(q, EndTxn(false)) == q + [EndTxn(false)]
  {
    if q != [] { AbortGoesLast(q[1..]); }
  }

  lemma AbortOvertakes(s: Txn)
    requires Invariant(s) && CommitPending(s) && BeginAbort(s).Returns?
    ensures CanMisplace(Step(s, Abort))
  {
    AbortStep(s);
    var s1 := Step(s, Abort);
    if s.inFlight == Some(EndTxn(true)) {
      MisplacesNow(s1);
    } else {
      IsCounted(Sole, s.queue, EndTxn(true));
      CommitIsLast(s.queue);
      AbortGoesLast(s.queue);
      AnswerMisplaces(s1, s.queue);
    }
  }

  /** What keeps the invariant misplaces nothing. */
  lemma NothingMisplaced(s: Txn)
    requires Invariant(s)
    ensures !CanMisplace(s)
  {
    forall es | ValidRun(true, s, es) ensures !Misplaced(Run(true, s, es)) {
      RunKeepsInvariant(s, es);
      var s1 := Run(true, s, es);
      assert s1.inFlight.Some? ==> Alive(s1.queue, s1.inFlight, s1.inFlight.value);
    }
  }

  /**
   * The exact condition on the user. After any run with careful calls, an abort that is
   * accepted lets a misplaced EndTxn go out, at once or later, exactly if the request that
   * commits the transaction is still queued or in flight when it is called.
   */
  lemma AbortIsCareless(es: seq<Event>)
    requires ValidRun(true, Start(), es) && BeginAbort(Run(true, Start(), es)).Returns?
    ensures CanMisplace(Step(Run(true, Start(), es), Abort)) <==> CommitPending(Run(true, Start(), es))
  {
    StartIsGood();
    RunKeepsInvariant(Start(), es);
    var s := Run(true, Start(), es);
    if CommitPending(s) {
      AbortOvertakes(s);
    } else {
      StepKeepsInvariant(s, Abort);
      NothingMisplaced(Step(s, Abort));
    }
  }

  // ----- such a user ------------------------------------------------------------------

  const P := TopicPartition("t", 0)
  const Q := TopicPartition("t", 1)

  /** In a transaction that Q has been added to and produced to. */
  function WithQ(): Txn {
    Start().(phase := InTransaction, partitions := {Q}, started := true, named := {Q}, produced := {Q})
  }

  lemma ReadyIsReachable(careful: bool)
    ensures Reachable(careful, Start().(phase := Ready))
  {
    var s0 := Start();
    assert ValidRun(careful, s0, []) && Run(careful, s0, []) == s0;
    var s1 := s0.(phase := Initializing, undone := 1, queue := [InitProducerId]);
    InitStep(s0);
    Reach(careful, s0, Init, s1);
    var s2 := s1.(queue := [], inFlight := Some(InitProducerId));
    NextReleases(s1);
    Reach(careful, s1, Next, s2);
    Reach(careful, s2, Respond(Success), s0.(phase := Ready));
  }

  lemma SentQIsReachable()
    ensures Reachable(false,
            Start().(phase := InTransaction, named := {Q}, incomplete := multiset{Q}, newPartitions := {Q}))
  {
    ReadyIsReachable(false);
    var s0 := Start().(phase := Ready);
    var s1 := s0.(phase := InTransaction);
    Reach(false, s0, Begin, s1);
    assert s1.named + {Q} == {Q} && s1.newPartitions + {Q} == {Q};
    Reach(false, s1, SendRecord(Q), s1.(named := {Q}, incomplete := multiset{Q}, newPartitions := {Q}));
  }

  lemma WithQIsReachable()
    ensures Reachable(false, WithQ())
  {
    SentQIsReachable();
    var s2 := Start().(phase := InTransaction, named := {Q}, incomplete := multiset{Q}, newPartitions := {Q});
    var s3 := s2.(newPartitions := {}, pendingPartitions := {Q}, inFlight := Some(AddPartitions({Q})));
    assert s2.pendingPartitions + s2.newPartitions == {Q};
    assert AddNewPartitions(s2).queue == [AddPartitions({Q})];
    Reach(false, s2, Next, s3);
    AddedQ(s3);
  }

  lemma AddedQ(s3: Txn)
    requires Reachable(false, s3)
    requires s3 == Start().(phase := InTransaction, named := {Q}, incomplete := multiset{Q}, pendingPartitions := {Q},
                                              inFlight := Some(AddPartitions({Q})))
    ensures Reachable(false, WithQ())
  {
    var s4 := s3.(inFlight := None, pendingPartitions := {}, partitions := {Q}, started := true);
    assert s3.pendingPartitions - {Q} == {} && s3.partitions + {Q} == {Q};
    Reach(false, s3, Respond(Success), s4);
    var s5 := s4.(produced := {Q});
    assert s4.produced + {Q} == {Q};
    Reach(false, s4, Produce(Q), s5);
    assert s5.incomplete - multiset{Q} == multiset{};
    Reach(false, s5, BatchAcked(Q), WithQ());
  }

  /** The commit has been called, and P could not be added. */
  function Failing(): Txn {
    WithQ().(phase := AbortableError, queue := [EndTxn(true)], undone := 1, incomplete := multiset{P}, named := {Q, P})
  }

  lemma FailingIsReachable()
    ensures Reachable(false, Failing())
  {
    WithQIsReachable();
    var s0 := WithQ();
    var s1 := s0.(named := {Q, P}, incomplete := multiset{P}, newPartitions := {P});
    assert s0.named + {P} == {Q, P} && s0.newPartitions + {P} == {P};
    Reach(false, s0, SendRecord(P), s1);
    var s2 := s1.(phase := CommittingTransaction, undone := 1, newPartitions := {}, pendingPartitions := {P},
                  queue := [AddPartitions({P}), EndTxn(true)]);
    assert s1.pendingPartitions + s1.newPartitions == {P};
    assert Enqueue([AddPartitions({P})], EndTxn(true)) == [AddPartitions({P})] + Enqueue([], EndTxn(true));
    CommitStep(s1);
    Reach(false, s1, Commit, s2);
    FailedP(s2);
  }

  lemma FailedP(s2: Txn)
    requires Reachable(false, s2)
    requires s2 == WithQ().(phase := CommittingTransaction, named := {Q, P}, incomplete := multiset{P}, undone := 1,
                                              pendingPartitions := {P}, queue := [AddPartitions({P}), EndTxn(true)])
    ensures Reachable(false, Failing())
  {
    var s3 := s2.(queue := [EndTxn(true)], inFlight := Some(AddPartitions({P})));
    assert s2.queue[1..] == [EndTxn(true)];
    Reach(false, s2, Next, s3);
    assert s3.pendingPartitions - {P} == {};
    Reach(false, s3, Respond(Abortable), Failing());
  }

  /**
   * A user who calls abort without waiting for the result of commit can have the aborted
   * transaction committed: the committing EndTxn is still queued and goes out first.
   */
  lemma ImpatientUserCommitsAborted()
    ensures exists s ::
              && Reachable(false, s) && s.phase == AbortingTransaction
              && s.inFlight == Some(EndTxn(true)) && s.named != s.partitions
  {
    FailingIsReachable();
    var s0 := Failing();
    var s1 := s0.(phase := AbortingTransaction, queue := [EndTxn(true), EndTxn(false)], undone := 2);
    assert Enqueue([EndTxn(true)], EndTxn(false)) == [EndTxn(true)] + Enqueue([], EndTxn(false));
    AbortStep(s0);
    Reach(false, s0, Abort, s1);
    DroppedIsReachable(s1);
    CommitGoesFirst(s1.(incomplete := multiset{}, failed := true));
  }

  lemma DroppedIsReachable(s1: Txn)
    requires Reachable(false, s1) && s1.phase == AbortingTransaction && s1.incomplete == multiset{P}
    ensures Reachable(false, s1.(incomplete := multiset{}, failed := true))
  {
    assert s1.incomplete - multiset{P} == multiset{};
    Reach(false, s1, BatchDropped(P), s1.(incomplete := multiset{}, failed := true));
  }

  lemma CommitGoesFirst(s2: Txn)
    requires Reachable(false, s2)
    requires s2 == Failing().(phase := AbortingTransaction, queue := [EndTxn(true), EndTxn(false)], undone := 2,
                              incomplete := multiset{}, failed := true)
    ensures exists s ::
              && Reachable(false, s) && s.phase == AbortingTransaction
              && s.inFlight == Some(EndTxn(true)) && s.named != s.partitions
  {
    var s3 := s2.(queue := [EndTxn(false)], inFlight := Some(EndTxn(true)));
    assert s2.queue[1..] == [EndTxn(false)];
    Reach(false, s2, Next, s3);
    assert P in s3.named && P !in s3.partitions;
  }
}
