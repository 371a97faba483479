/**
 * Errors of the transaction manager: which replies raise, what an error leaves of a transaction, and
 * that a fatal error is final.
 */
module TransactionErrors {
  import opened Common
  import opened Transactions
  import opened TransactionSafety
  import opened TransactionOffsets

  /**
   * In every careful run, a reply raises exactly in these cases: a producer id after a fatal error; the
   * end of a transaction that has failed meanwhile; an abortable error while there is no transaction or
   * after a fatal error; any error whose method does not exist; an answer that refuses an offset, or
   * accepts one that is no longer pending.
   */
  lemma RepliesRaiseWhen(es: seq<Event>, r: Reply)
    requires ValidRun(true, Start(), es) && Enabled(true, Run(true, Start(), es), Respond(r))
    ensures var s := Run(true, Start(), es);
            var h := s.inFlight.value;
            Attempt(s, Respond(r)).Raises? <==>
              || (r.Success? && h.InitProducerId? && s.phase == FatalError)
              || (r.Success? && h.EndTxn? && (s.phase == AbortableError || s.phase == FatalError))
              || (r.Abortable? && (Between(s.phase) || s.phase == FatalError)) || r.Unhandled?
              || (r.Results? && (Refuses(r.results) || !(h.offsets.Keys <= s.offsets.pending.Keys)))
  {
    GoodStart();
    RunKeepsInvariant(Start(), es);
    var s := Run(true, Start(), es);
    assert Alive(s.queue, s.inFlight, s.inFlight.value);
    match r {
      case Success => SuccessRaisesWhen(s);
      case TryAgain(lookup) => assert Attempt(s, Respond(TryAgain(lookup))).Returns?;
      case Fatal => assert Attempt(s, Respond(Fatal)).Returns?;
      case Abortable => AbortableRaisesWhen(s);
      case Unhandled(_) =>
      case Results(rs) => AnswerRaises(s.inFlight.value.offsets, s.offsets.pending, rs);
    }
  }

  lemma SuccessRaisesWhen(s: Txn)
    requires s.inFlight.Some? && InPlace(s.phase, s.named, s.inFlight.value)
    ensures var h := s.inFlight.value;
            Attempt(s, Respond(Success)).Raises? <==>
              || (h.InitProducerId? && s.phase == FatalError)
              || (h.EndTxn? && (s.phase == AbortableError || s.phase == FatalError))
  {
  }

  lemma AbortableRaisesWhen(s: Txn)
    requires s.inFlight.Some?
    ensures Attempt(s, Respond(Abortable)).Raises? <==> Between(s.phase) || s.phase == FatalError
  {
  }

  lemma AnswerRaises(o: Offsets, pending: Offsets, rs: seq<(TopicPartition, bool)>)
    requires AnswersFor(o, rs)
    ensures Clear(pending, rs).problem.Some? <==> Refuses(rs) || !(o.Keys <= pending.Keys)
  {
    DoneIffAllPending(pending, rs);
    if o.Keys <= pending.Keys {
      forall i | 0 <= i < |rs| ensures rs[i].0 in pending { assert rs[i].0 in o; }
    } else {
      var tp :| tp in o && tp !in pending;
      assert (tp, true) in rs || (tp, false) in rs;
    }
  }

  /** The phase after a reply that does not raise. */
  lemma PhaseAfterReply(s: Txn, r: Reply)
    requires Fits(s, Respond(r)) && s.inFlight.Some? && Attempt(s, Respond(r)).Returns?
    ensures Step(s, Respond(r)).phase ==
              if r.Fatal? then FatalError
              else if r.Abortable? then if s.phase == AbortingTransaction then AbortingTransaction else AbortableError
              else if r.Success? && (s.inFlight.value.InitProducerId? || s.inFlight.value.EndTxn?) then Ready
              else s.phase
  {
    match r {
      case Success =>
      case TryAgain(lookup) => TryAgainStep(s, lookup);
      case Fatal => FatalStep(s);
      case Abortable =>
      case Unhandled(_) =>
      case Results(rs) => ResultsStep(s, s.inFlight.value, rs);
    }
  }

  /**
   * A request that has to find its coordinator first: in every careful run without an error, the lookup is
   * what goes out next, and the request is still in the queue behind it.
   */
  lemma LookupGoesFirst(es: seq<Event>)
    requires ValidRun(true, Start(), es) && Enabled(true, Run(true, Start(), es), Respond(TryAgain(true)))
    requires Run(true, Start(), es).phase != FatalError
    ensures var s := Run(true, Start(), es);
            var s1 := Step(Step(s, Respond(TryAgain(true))), Next);
            s1.inFlight == Some(FindCoordinator) && s.inFlight.value in s1.queue + [FindCoordinator]
  {
    GoodStart();
    RunKeepsInvariant(Start(), es);
    var s := Run(true, Start(), es);
    TryAgainStep(s, true);
    TryAgainKeeps(s, s.inFlight.value, true);
    EnqueueAdds(s.queue, FindCoordinator);
    EnqueueAdds(Enqueue(s.queue, FindCoordinator), s.inFlight.value);
    LookupReleased(Step(s, Respond(TryAgain(true))), s.inFlight.value);
  }

  /** A lookup goes before every other request, whatever else there is. */
  lemma LookupReleased(s: Txn, h: Handler)
    requires Invariant(s) && s.inFlight.None? && FindCoordinator in s.queue && h in s.queue && s.phase != FatalError
    ensures var s1 := Step(s, Next); s1.inFlight == Some(FindCoordinator) && h in s1.queue + [FindCoordinator]
  {
    AddNewInvariant(s);
    AddNewKeepsQueue(s, FindCoordinator);
    AddNewKeepsQueue(s, h);
    NextProceeds(s);
    LookupIsHead(AddNewPartitions(s), h);
    HeadIsReleased(AddNewPartitions(s), Step(s, Next));
  }

  lemma AddNewKeepsQueue(s: Txn, h: Handler)
    requires h in s.queue
    ensures h in AddNewPartitions(s).queue && AddNewPartitions(s).phase == s.phase
  {
    if s.newPartitions != {} { EnqueueAdds(s.queue, AddPartitions(s.pendingPartitions + s.newPartitions)); }
  }

  lemma LookupIsHead(s: Txn, h: Handler)
    requires Sorted(s.queue) && FindCoordinator in s.queue && h in s.queue
    ensures s.queue[0] == FindCoordinator && h in s.queue[1..] + [FindCoordinator]
  {
    HeadFirst(s.queue, FindCoordinator);
    PopKeepsOrder(s.queue);
  }

  lemma HeadIsReleased(s: Txn, s1: Txn)
    requires s.queue != [] && s.queue[0].FindCoordinator? && s.phase != FatalError && Proceeds(s, s1)
    ensures s1 == Release(s)
  {
  }

  /**
   * In an error state the request at the head is failed and nothing goes out, except that a lookup still
   * goes out after an abortable error. Only an EndTxn waits for the batches.
   */
  lemma ErrorTakesHead(s: Txn)
    requires HasError(s) && s.inFlight.None? && s.newPartitions == {} && s.queue != []
    requires s.queue[0].EndTxn? ==> s.incomplete == multiset{}
    ensures var s1 := Step(s, Next);
            && s1.queue == s.queue[1..] && s1.phase == s.phase
            && (s1.inFlight.Some? <==> s.phase == AbortableError && s.queue[0].FindCoordinator?)
            && (s1.inFlight.Some? ==> s1.inFlight == Some(s.queue[0]) && s1.undone == s.undone)
            && (s1.inFlight.None? ==> s1.undone == s.undone - One(Awaited, s.queue[0]))
  {
    NextProceeds(s);
  }

  // ----- fatal errors ------------------------------------------------------------------

  /**
   * A fatal error is final: whatever happens after it, the phase stays, every call of the user raises
   * and changes nothing, and no request goes out.
   */
  lemma {:induction false} FatalIsFinal(careful: bool, s: Txn, es: seq<Event>)
    requires s.phase == FatalError && ValidRun(careful, s, es)
    ensures var s1 := Run(careful, s, es);
            && s1.phase == FatalError
            && (forall e: Event {:trigger Attempt(s1, e)} :: IsCall(e) ==> Attempt(s1, e).Raises? && Step(s1, e) == s1)
            && (s1.inFlight.None? ==> Step(s1, Next).inFlight.None?)
    decreases es
  {
    if es == [] {
      NothingGoesOut(s);
      forall e: Event | IsCall(e) ensures Attempt(s, e).Raises? && Step(s, e) == s { CallRaises(s, e); }
    } else {
      StaysFatal(s, es[0]);
      FatalIsFinal(careful, Step(s, es[0]), es[1..]);
    }
  }

  lemma CallRaises(s: Txn, e: Event)
    requires s.phase == FatalError && IsCall(e)
    ensures Attempt(s, e).Raises? && Step(s, e) == s
  {
  }

  predicate IsCall(e: Event) {
    e.Init? || e.Begin? || e.SendRecord? || e.SendOffsetsToTransaction? || e.Commit? || e.Abort?
  }

  lemma NothingGoesOut(s: Txn)
    requires s.phase == FatalError
    ensures s.inFlight.None? ==> Step(s, Next).inFlight.None?
  {
    NextProceeds(s);
  }

  lemma StaysFatal(s: Txn, e: Event)
    requires s.phase == FatalError && Fits(s, e)
    ensures Step(s, e).phase == FatalError
  {
    PhaseFollowsTable(s, e);
  }

  /** The sender asks n times. */
  ghost function Ask(s: Txn, n: nat): Txn
    decreases n
  {
    if n == 0 then s else Ask(Step(s, Next), n - 1)
  }

  /**
   * After a fatal error every result of the user's is done, with none left but those lost before: once no
   * request is in flight and the batches have been dropped, asking as often as there are requests is enough.
   */
  lemma {:induction false} FatalFailsAll(s: Txn)
    requires Balanced(s) && s.phase == FatalError && s.inFlight.None? && s.incomplete == multiset{}
    requires s.newPartitions == {}
    ensures var s1 := Ask(s, |s.queue|); s1.queue == [] && s1.undone == s.lost
    decreases |s.queue|
  {
    if s.queue != [] {
      var s1, n := Step(s, Next), |s.queue[1..]|;
      FatalPops(s);
      NextBalances(s);
      FatalFailsAll(s1);
      assert Ask(s, n + 1) == Ask(s1, n);
    }
  }

  /** The same with partitions that have not been asked for yet. */
  lemma FatalFailsEverything(s: Txn)
    requires Balanced(s) && s.phase == FatalError && s.inFlight.None? && s.incomplete == multiset{}
    ensures var s1 := Ask(s, |AddNewPartitions(s).queue|); s1.queue == [] && s1.undone == s.lost
  {
    AddNewBalances(s);
    var s0 := AddNewPartitions(s);
    assert s0.newPartitions == {} && s0.inFlight.None? && s0.lost == s.lost;
    FatalFailsAll(s0);
    if s0.queue != [] {
      var n := |s0.queue[1..]|;
      FatalPops(s0);
      NextProceeds(s);
      assert Step(s, Next) == Step(s0, Next);
      assert Ask(s, n + 1) == Ask(Step(s, Next), n) && Ask(s0, n + 1) == Ask(Step(s0, Next), n);
    }
  }

  lemma FatalPops(s: Txn)
    requires s.phase == FatalError && s.inFlight.None? && s.incomplete == multiset{}
    requires s.newPartitions == {} && s.queue != []
    ensures Step(s, Next) == Finish(s.(queue := s.queue[1..]), s.queue[0])
  {
    NextProceeds(s);
  }

  // ----- aborts ------------------------------------------------------------------------

  /**
   * An abort stands: while a transaction is being aborted, no call, no failing batch and no abortable error
   * changes the phase. Only a fatal error does, or the end of the transaction.
   */
  lemma AbortStands(careful: bool, s: Txn, e: Event)
    requires Enabled(careful, s, e) && s.phase == AbortingTransaction
    ensures var s1 := Step(s, e);
            || s1.phase == AbortingTransaction
            || (s1.phase == FatalError && (e == Respond(Fatal) || (e.BatchFailed? && e.fatal) || e == Trouble(true)))
            || (s1.phase == Ready && e == Respond(Success)
                 && (s.inFlight.value.InitProducerId? || s.inFlight.value.EndTxn?))
            || (s1.phase == Ready && e.Next?)
  {
    match e {
      case Next => AbortStandsAsked(s);
      case Respond(r) =>
        if Attempt(s, e).Returns? { PhaseAfterReply(s, r); } else { assert Step(s, e).phase == s.phase; }
      case _ =>
        if IsCall(e) { CallIsRefused(s, e); } else { AbortStandsFailures(s, e); }
    }
  }

  lemma AbortStandsAsked(s: Txn)
    requires s.phase == AbortingTransaction
    ensures Step(s, Next).phase == AbortingTransaction || Step(s, Next).phase == Ready
  {
    NextProceeds(s);
    ProceedingPhase(AddNewPartitions(s), Step(s, Next));
  }

  lemma ProceedingPhase(s: Txn, s1: Txn)
    requires Proceeds(s, s1)
    ensures s1.phase == s.phase || s1.phase == Ready
  {
  }

  lemma AbortStandsFailures(s: Txn, e: Event)
    requires s.phase == AbortingTransaction && Fits(s, e) && !IsCall(e) && !e.Next? && !e.Respond?
    ensures Step(s, e).phase == AbortingTransaction
            || (Step(s, e).phase == FatalError && (e.BatchFailed? || e.Trouble?) && e.fatal)
  {
  }
}
