/**
 * kafka/producer/transaction_manager.py with its fields updated in place. Each method is
 * proved against the state machine: `View` is the manager's state, and every method takes it
 * to the state the machine's step leads to.
 */
module TransactionManagement {
  import opened Common
  import opened Transactions

  lemma {:induction false} EnqueueBehind(q: seq<Handler>, h: Handler, i: nat)
    requires i <= |q| && forall k :: 0 <= k < i ==> q[k].Priority() <= h.Priority()
    ensures Enqueue(q, h) == q[..i] + Enqueue(q[i..], h)
  {
    if i > 0 {
      EnqueueBehind(q[1..], h, i - 1);
      HeadAndRest(q, i);
      Regroup(q[0], q[1..i], Enqueue(q[i..], h));
    }
  }

  lemma HeadAndRest(q: seq<Handler>, i: nat)
    requires 0 < i <= |q|
    ensures q[1..][..i - 1] == q[1..i] && q[1..][i - 1..] == q[i..] && q[..i] == [q[0]] + q[1..i]
  {
  }

  lemma Regroup(h: Handler, q: seq<Handler>, r: seq<Handler>)
    ensures [h] + (q + r) == ([h] + q) + r
  {
  }

  /** What a reply does when it raises has nothing to do with the count of lost results. */
  lemma LostApart(s: Txn, h: Handler, r: Reply, lost: int)
    requires r.Results? ==> h.OffsetCommit?
    ensures LeftBehind(s.(lost := lost), h, r) == LeftBehind(s, h, r).(lost := lost)
  {
    if r.Results? { assert Recorded(s.(lost := lost), h.offsets, r.results).offsets ==
      Recorded(s, h.offsets, r.results).offsets; }
  }

  /** The handler is out of flight, v is what its reply does, and one that raised loses its result. */
  lemma ReplyOutcome(s: Txn, r: Reply, ok: bool, v: Txn)
    requires Fits(s, Respond(r)) && s.inFlight.Some?
    requires ok <==> Complete(s.(inFlight := None), s.inFlight.value, r).Returns?
    requires v == if ok then Complete(s.(inFlight := None), s.inFlight.value, r).value
                  else LeftBehind(s.(inFlight := None), s.inFlight.value, r)
    ensures ok <==> Attempt(s, Respond(r)).Returns?
    ensures Step(s, Respond(r)) ==
            if ok then v else v.(lost := if s.inFlight.value.Awaited() then s.lost + 1 else s.lost)
  {
    if !ok { LostApart(s.(inFlight := None), s.inFlight.value, r, Stranded(s).lost); }
  }

  lemma CommitReturns(s0: Txn, s: Txn)
    requires s0.phase == InTransaction && s == s0.(phase := CommittingTransaction, undone := s0.undone + 1)
    ensures BeginCommit(s0) == Returns(Push(AddNewPartitions(s), EndTxn(true)))
  {
  }

  lemma AbortReturns(s0: Txn, s: Txn)
    requires s0.phase == InTransaction || s0.phase == AbortableError
    requires s == s0.(phase := AbortingTransaction, undone := s0.undone + 1, newPartitions := {})
    ensures BeginAbort(s0) == Returns(Push(s, EndTxn(false)))
  {
  }

  class TransactionManager {
    var phase: Phase
    var newPartitions: set<TopicPartition>
    var pendingPartitions: set<TopicPartition>
    var partitions: set<TopicPartition>
    var started: bool
    var pendingRequests: seq<Handler>
    var inFlight: Option<Handler>
    var pendingOffsets: Offsets
    ghost var rest: Txn                      // the accumulator's batches, the user's results and the history

    ghost function View(): Txn
      reads this
    {
      rest.(phase := phase, newPartitions := newPartitions, pendingPartitions := pendingPartitions,
            partitions := partitions, started := started, queue := pendingRequests, inFlight := inFlight,
            offsets := rest.offsets.(pending := pendingOffsets))
    }

    constructor ()
      ensures View() == Start()
    {
      phase, newPartitions, pendingPartitions, partitions, started := Uninitialized, {}, {}, {}, false;
      pendingRequests, inFlight, pendingOffsets, rest := [], None, map[], Start();
    }

    method TransitionTo(target: Phase) returns (ok: bool)
      modifies this`phase
      ensures ok <==> TransitionValid(old(phase), target)
      ensures phase == if ok then target else old(phase)
    {
      ok := TransitionValid(phase, target);
      if ok { phase := target; }
    }

    predicate HasError()
      reads this
    {
      phase == AbortableError || phase == FatalError
    }

    method EnqueueRequest(h: Handler)
      modifies this`pendingRequests
      ensures pendingRequests == Enqueue(old(pendingRequests), h)
    {
      var i := 0;
      while i < |pendingRequests| && pendingRequests[i].Priority() <= h.Priority()
        invariant 0 <= i <= |pendingRequests| && pendingRequests == old(pendingRequests)
        invariant forall k :: 0 <= k < i ==> pendingRequests[k].Priority() <= h.Priority()
      {
        i := i + 1;
      }
      EnqueueBehind(pendingRequests, h, i);
      pendingRequests := pendingRequests[..i] + [h] + pendingRequests[i..];
    }

    method EnqueueNewPartitions()
      modifies this`pendingPartitions, this`newPartitions, this`pendingRequests
      ensures View() == AddNewPartitions(old(View()))
    {
      if newPartitions != {} {
        pendingPartitions := pendingPartitions + newPartitions;
        newPartitions := {};
        EnqueueRequest(AddPartitions(pendingPartitions));
      }
    }

    method CompleteTransaction() returns (ok: bool)
      modifies this
      ensures ok <==> Transactions.CompleteTransaction(old(View())).Returns?
      ensures View() == if ok then Transactions.CompleteTransaction(old(View())).value else old(View())
    {
      ok := TransitionTo(Ready);
      if ok {
        started, newPartitions, pendingPartitions, partitions := false, {}, {}, {};
        rest := rest.(produced := {}, offsetsAdded := false, failed := false);
      }
    }

    // ----- calls of the user -----------------------------------------------------------

    method InitializeTransactions() returns (ok: bool)
      modifies this
      ensures ok <==> InitTransactions(old(View())).Returns?
      ensures View() == if ok then InitTransactions(old(View())).value else old(View())
    {
      ok := TransitionTo(Initializing);
      if ok {
        EnqueueRequest(InitProducerId);
        rest := rest.(undone := rest.undone + 1);
      }
    }

    method BeginTransaction() returns (ok: bool)
      modifies this
      ensures ok <==> Transactions.BeginTransaction(old(View())).Returns?
      ensures View() == if ok then Transactions.BeginTransaction(old(View())).value else old(View())
    {
      if HasError() { return false; }
      ok := TransitionTo(InTransaction);
      if ok {
        rest := rest.(named := {}, unhandled := false,
          offsets := OffsetCommits(pendingOffsets, {}, {}, false, Items(pendingOffsets)));
      }
    }

    /** maybe_add_partition_to_transaction, with the record appended after it. */
    method MaybeAddPartition(tp: TopicPartition) returns (ok: bool)
      modifies this
      ensures ok <==> Send(old(View()), tp).Returns?
      ensures View() == if ok then Send(old(View()), tp).value else old(View())
    {
      if HasError() || phase != InTransaction { return false; }
      if !(tp in partitions || tp in newPartitions || tp in pendingPartitions) {
        newPartitions := newPartitions + {tp};
      }
      rest := rest.(named := rest.named + {tp}, incomplete := rest.incomplete + multiset{tp});
      return true;
    }

    method SendOffsetsToTransaction(offsets: Offsets) returns (ok: bool)
      modifies this
      ensures ok <==> SendOffsets(old(View()), offsets).Returns?
      ensures View() == if ok then SendOffsets(old(View()), offsets).value else old(View())
    {
      if HasError() || phase != InTransaction { return false; }
      EnqueueRequest(AddOffsets(offsets));
      rest := rest.(undone := rest.undone + 1,
                    offsets := rest.offsets.(asked := rest.offsets.asked + Items(offsets)));
      return true;
    }

    method BeginCommit() returns (ok: bool)
      modifies this
      ensures ok <==> Transactions.BeginCommit(old(View())).Returns?
      ensures View() == if ok then Transactions.BeginCommit(old(View())).value else old(View())
    {
      if HasError() { return false; }
      ok := TransitionTo(CommittingTransaction);
      if ok {
        rest := rest.(undone := rest.undone + 1);
        ghost var s := View();
        EnqueueNewPartitions();
        ghost var s1 := View();
        EnqueueRequest(EndTxn(true));
        assert s1 == AddNewPartitions(s) && View() == Push(s1, EndTxn(true));
        CommitReturns(old(View()), s);
      }
    }

    method BeginAbort() returns (ok: bool)
      modifies this
      ensures ok <==> Transactions.BeginAbort(old(View())).Returns?
      ensures View() == if ok then Transactions.BeginAbort(old(View())).value else old(View())
    {
      if phase != AbortableError && HasError() { return false; }
      ok := TransitionTo(AbortingTransaction);
      if ok {
        rest := rest.(undone := rest.undone + 1);
        newPartitions := {};
        ghost var s := View();
        EnqueueNewPartitions();
        assert View() == s;
        EnqueueRequest(EndTxn(false));
        assert View() == Push(s, EndTxn(false));
        AbortReturns(old(View()), s);
      }
    }

    // ----- the sender ------------------------------------------------------------------

    method SetDone(h: Handler)
      modifies this`rest
      ensures View() == Finish(old(View()), h)
    {
      if h.Awaited() { rest := rest.(undone := rest.undone - 1); }
    }

    method PopRequest() returns (h: Handler)
      requires pendingRequests != []
      modifies this`pendingRequests
      ensures h == old(pendingRequests)[0] && pendingRequests == old(pendingRequests)[1..]
    {
      h := pendingRequests[0];
      pendingRequests := pendingRequests[1..];
    }

    /** An EndTxn with nothing to end is done at once, and the next request takes its place. */
    method SkipRequest() returns (ok: bool)
      requires pendingRequests != []
      modifies this
      ensures ok <==> SkipEndTxn(old(View())).Returns?
      ensures ok ==> View() == SkipEndTxn(old(View())).value
      ensures !ok ==> View() == Finish(old(View()).(queue := old(pendingRequests)[1..]), old(pendingRequests)[0])
    {
      ghost var s := old(View());
      var h := PopRequest();
      SetDone(h);
      assert View() == Finish(s.(queue := s.queue[1..]), s.queue[0]);
      ok := true;
      if phase != FatalError { ok := CompleteTransaction(); }
      if ok && pendingRequests != [] { ReleaseRequest(); }
    }

    method ReleaseRequest()
      requires pendingRequests != []
      modifies this
      ensures View() == Release(old(View()))
    {
      var h := PopRequest();
      inFlight := Some(h);
    }

    method TerminateRequest()
      requires pendingRequests != []
      modifies this
      ensures View() == Finish(old(View()).(queue := old(pendingRequests)[1..]), old(pendingRequests)[0])
    {
      var h := PopRequest();
      SetDone(h);
    }

    /** next_request_handler; what it returns is in flight. */
    method NextRequestHandler(hasIncompleteBatches: bool) returns (ok: bool)
      requires hasIncompleteBatches <==> rest.incomplete != multiset{}
      modifies this
      ensures ok <==> NextRequest(old(View())).Returns?
      ensures View() == Step(old(View()), Next)
    {
      EnqueueNewPartitions();
      if pendingRequests == [] || (pendingRequests[0].EndTxn? && hasIncompleteBatches) { return true; }
      var head := pendingRequests[0];
      if HasError() && !(phase == AbortableError && head.FindCoordinator?) {
        TerminateRequest();
        return true;
      }
      if head.EndTxn? && !started {
        ok := SkipRequest();
      } else {
        ReleaseRequest();
        ok := true;
      }
    }

    method TransitionToAbortableError() returns (ok: bool)
      modifies this`phase
      ensures ok <==> ToAbortableError(old(View())).Returns?
      ensures View() == if ok then ToAbortableError(old(View())).value else old(View())
    {
      if phase == AbortingTransaction { return true; }
      ok := TransitionTo(AbortableError);
    }

    /** handle_response of the handler that was in flight, after a response without error. */
    method HandleSuccess(h: Handler) returns (ok: bool)
      modifies this
      ensures ok <==> Succeed(old(View()), h).Returns?
      ensures View() == if ok then Succeed(old(View()), h).value else old(View())
    {
      ok := true;
      match h {
        case FindCoordinator =>
        case InitProducerId =>
          ok := TransitionTo(Ready);
          if ok { SetDone(h); }
        case AddPartitions(tps) =>
          pendingPartitions := pendingPartitions - tps;
          partitions := partitions + tps;
          started := true;
        case AddOffsets(offsets) =>
          pendingOffsets := pendingOffsets + offsets;
          EnqueueRequest(OffsetCommit(pendingOffsets));
          started := true;
          rest := rest.(offsetsAdded := true);
        case OffsetCommit(_) => SetDone(h);
        case EndTxn(_) =>
          ok := CompleteTransaction();
          if ok { SetDone(h); }
      }
    }

    /** The request goes back into the queue, behind a lookup of its coordinator if that is needed. */
    method Retry(h: Handler, lookup: bool)
      modifies this`pendingRequests
      ensures View() == Push(if lookup then Push(old(View()), FindCoordinator) else old(View()), h)
    {
      if lookup { EnqueueRequest(FindCoordinator); }
      EnqueueRequest(h);
    }

    method FailFatally(h: Handler)
      modifies this
      ensures View() == Finish(old(View()).(phase := FatalError), h)
    {
      var ok := TransitionTo(FatalError);
      SetDone(h);
    }

    /** What on_complete does with a reply once the handler is no longer in flight. */
    method HandleReply(h: Handler, reply: Reply) returns (ok: bool)
      requires reply.Results? ==> h.OffsetCommit?
      modifies this
      ensures ok <==> Complete(old(View()), h, reply).Returns?
      ensures View() == if ok then Complete(old(View()), h, reply).value else LeftBehind(old(View()), h, reply)
    {
      match reply {
        case Success => ok := HandleSuccess(h);
        case TryAgain(lookup) =>
          Retry(h, lookup);
          ok := true;
        case Fatal =>
          FailFatally(h);
          ok := true;
        case Abortable => ok := HandleAbortableError(h);
        case Unhandled(abortable) => ok := HandleUnhandled(h, abortable);
        case Results(results) => ok := HandleResults(h, results);
      }
    }

    /** The result of a handler that is gone stays undone. */
    ghost method CountLost(h: Handler, lost: int)
      modifies this`rest
      ensures View() == old(View()).(lost := if h.Awaited() then lost + 1 else lost)
    {
      rest := rest.(lost := if h.Awaited() then lost + 1 else lost);
    }

    /** on_complete; a handler whose reply raises is gone. */
    method OnComplete(reply: Reply) returns (ok: bool)
      requires Fits(View(), Respond(reply)) && inFlight.Some?
      modifies this
      ensures ok <==> Attempt(old(View()), Respond(reply)).Returns?
      ensures View() == Step(old(View()), Respond(reply))
    {
      var h := inFlight.value;
      inFlight := None;
      ok := HandleReply(h, reply);
      ReplyOutcome(old(View()), reply, ok, View());
      if !ok { CountLost(h, old(View()).lost); }
    }

    /**
     * handle_response of an offset commit. An accepted offset is taken off the pending ones, and it raises if
     * it is not there; any error raises at once, because the error's name is looked up in the wrong object.
     */
    method HandleResults(h: Handler, results: seq<(TopicPartition, bool)>) returns (ok: bool)
      requires h.OffsetCommit?
      modifies this
      ensures ok <==> Clear(old(pendingOffsets), results).problem.None?
      ensures var s := Recorded(old(View()), h.offsets, results); View() == if ok then Finish(s, h) else s
    {
      rest := rest.(offsets := rest.offsets.(acked := rest.offsets.acked + Accepted(h.offsets, results),
                                             refused := rest.offsets.refused || Refuses(results)));
      ok := ClearPending(results);
      if ok { SetDone(h); }
    }

    /** The loop over the results. */
    method ClearPending(results: seq<(TopicPartition, bool)>) returns (ok: bool)
      modifies this`pendingOffsets
      ensures ok <==> Clear(old(pendingOffsets), results).problem.None?
      ensures pendingOffsets == Clear(old(pendingOffsets), results).left
    {
      for k := 0 to |results|
        invariant Clear(old(pendingOffsets), results) == Clear(pendingOffsets, results[k..])
      {
        var (tp, accepted) := results[k];
        if !accepted || tp !in pendingOffsets { return false; }
        pendingOffsets := pendingOffsets - {tp};
        assert results[k..][1..] == results[k + 1..];
      }
      return true;
    }

    /**
     * An error whose method does not exist: AddPartitions has forgotten its pending partitions
     * by then, if it gets there.
     */
    method HandleUnhandled(h: Handler, abortable: bool) returns (ok: bool)
      modifies this
      ensures !ok
      ensures View() == old(View()).(unhandled := true,
              pendingPartitions := if abortable && h.AddPartitions? then old(pendingPartitions) - h.tps
              else old(pendingPartitions))
    {
      if abortable && h.AddPartitions? { pendingPartitions := pendingPartitions - h.tps; }
      rest := rest.(unhandled := true);
      return false;
    }

    /** AddPartitions forgets its pending partitions whatever the result. */
    method HandleAbortableError(h: Handler) returns (ok: bool)
      modifies this
      ensures ok <==> Complete(old(View()), h, Abortable).Returns?
      ensures ok ==> View() == Complete(old(View()), h, Abortable).value
      ensures !ok && h.AddPartitions? ==> View() == old(View()).(pendingPartitions := old(pendingPartitions) - h.tps)
      ensures !ok && !h.AddPartitions? ==> View() == old(View())
    {
      if h.AddPartitions? { pendingPartitions := pendingPartitions - h.tps; }
      ok := TransitionToAbortableError();
      if ok { SetDone(h); }
    }
  }
}
