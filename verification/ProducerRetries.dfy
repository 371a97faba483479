/** Which batches are retried, over whole runs and at each response. */
module ProducerRetries {
  import opened Common
  import opened ProducerModel
  import opened ProducerInvariants
  import opened ProducerRuns

  /** A batch marked as a retry was put back before its delivery timeout, and no more often than allowed. */
  predicate RetryOk(c: Config, b: Batch) {
    && (b.inRetry <==> b.attempts > 0)
    && (b.inRetry ==>
          b.lastAttempt < b.created + c.deliveryTimeout && (c.retries.Some? ==> b.attempts <= c.retries.value))
    && (!b.inRetry ==> b.lastAttempt == b.created)
  }

  ghost predicate RetriesOk(c: Config, s: State) {
    forall i :: 0 <= i < |s.batches| ==> RetryOk(c, s.batches[i])
  }

  /** No batch but the last new one differs in what RetryOk looks at. */
  ghost predicate SameAttempts(s: State, s1: State) {
    && |s.batches| <= |s1.batches|
    && forall i :: 0 <= i < |s.batches| ==>
         && s1.batches[i].inRetry == s.batches[i].inRetry && s1.batches[i].attempts == s.batches[i].attempts
         && s1.batches[i].lastAttempt == s.batches[i].lastAttempt && s1.batches[i].created == s.batches[i].created
  }

  lemma OtherStepsKeepAttempts(c: Config, s: State, e: Event)
    requires Enabled(c, s, e) && Step(c, s, e).Returns? && !e.Respond? && !e.Append?
    ensures SameAttempts(s, Step(c, s, e).value) && |Step(c, s, e).value.batches| == |s.batches|
  {
  }

  lemma AppendKeepsRetries(c: Config, s: State, e: Event)
    requires Enabled(c, s, e) && e.Append? && RetriesOk(c, s)
    ensures RetriesOk(c, Step(c, s, e).value)
  {
    var s1 := Step(c, s, e).value;
    forall i | 0 <= i < |s1.batches| ensures RetryOk(c, s1.batches[i]) {
      if i < |s.batches| { assert RetryOk(c, s.batches[i]); }
    }
  }

  lemma SuccessKeepsAttempts(c: Config, s: State, i: nat, now: int)
    requires i < |s.batches| && CompleteBatch(c, s, i, None, now).Returns?
    ensures var s1 := CompleteBatch(c, s, i, None, now).value; SameAttempts(s, s1) && |s1.batches| == |s.batches|
  {
    var s0 := s.(awaiting := s.awaiting - {i});
    SucceedKeepsAttempts(c, s0, i);
    UnmuteIs(c, Succeed(c, s0, i).value, i);
  }

  lemma SucceedKeepsAttempts(c: Config, s: State, i: nat)
    requires i < |s.batches| && Succeed(c, s, i).Returns?
    ensures var s1 := Succeed(c, s, i).value; SameAttempts(s, s1) && |s1.batches| == |s.batches|
  {
  }

  lemma UnmuteIs(c: Config, s: State, i: nat)
    requires i < |s.batches| && Unmute(c, s, i).Returns?
    ensures Unmute(c, s, i).value == s.(muted := Unmute(c, s, i).value.muted)
  {
  }

  lemma SameAttemptsKeep(c: Config, s: State, s1: State)
    requires RetriesOk(c, s) && SameAttempts(s, s1) && |s1.batches| == |s.batches|
    ensures RetriesOk(c, s1)
  {
    forall i | 0 <= i < |s1.batches| ensures RetryOk(c, s1.batches[i]) { assert RetryOk(c, s.batches[i]); }
  }

  lemma PutBackKeepsRetries(c: Config, s: State, s1: State, i: nat, err: ProduceError, now: int)
    requires RetriesOk(c, s) && i < |s.batches| && CanRetry(c, s.batches[i], err, now) && PutBack(s, s1, i, now)
    ensures RetriesOk(c, s1)
  {
    forall j | 0 <= j < |s1.batches| ensures RetryOk(c, s1.batches[j]) { assert RetryOk(c, s.batches[j]); }
  }

  lemma RespondKeepsRetries(c: Config, s: State, i: nat, err: Option<ProduceError>, now: int)
    requires Enabled(c, s, Respond(i, err, now)) && Step(c, s, Respond(i, err, now)).Returns? && RetriesOk(c, s)
    ensures RetriesOk(c, Step(c, s, Respond(i, err, now)).value)
  {
    var s1 := Step(c, s, Respond(i, err, now)).value;
    if err.None? {
      SuccessKeepsAttempts(c, s, i, now);
      SameAttemptsKeep(c, s, s1);
    } else {
      ErrorResponseIs(c, s, i, err.value, now);
      if CanRetry(c, s.batches[i], err.value, now) && (c.idempotent ==> Match(s, s.batches[i])) {
        PutBackKeepsRetries(c, s, s1, i, err.value, now);
      } else {
        SameAttemptsKeep(c, s, s1);
      }
    }
  }

  lemma StepKeepsRetries(c: Config, s: State, e: Event)
    requires Enabled(c, s, e) && Step(c, s, e).Returns? && RetriesOk(c, s)
    ensures RetriesOk(c, Step(c, s, e).value)
  {
    if e.Respond? {
      RespondKeepsRetries(c, s, e.id, e.err, e.now);
    } else if e.Append? {
      AppendKeepsRetries(c, s, e);
    } else {
      OtherStepsKeepAttempts(c, s, e);
      SameAttemptsKeep(c, s, Step(c, s, e).value);
    }
  }

  lemma {:induction false} RunKeepsRetries(c: Config, s: State, es: seq<Event>)
    requires ValidRun(c, s, es) && Run(c, s, es).Returns? && RetriesOk(c, s)
    ensures RetriesOk(c, Run(c, s, es).value)
    decreases es
  {
    if es != [] {
      StepKeepsRetries(c, s, es[0]);
      RunKeepsRetries(c, Step(c, s, es[0]).value, es[1..]);
    }
  }

  /**
   * In every reachable state: a batch marked as a retry was last put back within its delivery timeout,
   * after no more attempts than `retries`, and any other batch was never attempted before.
   */
  lemma RetriesAreTimely(c: Config, s: State, i: nat)
    requires ReachableState(c, s) && i < |s.batches|
    ensures var b := s.batches[i];
            && (b.inRetry ==>
                  && 0 < b.attempts && b.lastAttempt < b.created + c.deliveryTimeout
                  && (c.retries.Some? ==> b.attempts <= c.retries.value))
            && (!b.inRetry ==> b.attempts == 0 && b.lastAttempt == b.created)
  {
    var es :| ValidRun(c, Initial(), es) && Run(c, Initial(), es) == Returns(s);
    RunKeepsRetries(c, Initial(), es);
    assert RetryOk(c, s.batches[i]);
  }

  // ----- responses ---------------------------------------------------------------------

  /** The producer still has the id and epoch the batch was sent with; a batch without them needs one without. */
  predicate StampIsCurrent(s: State, b: Batch) {
    s.producerId == match b.stamp
                    case Some(st) => Some(ProducerIdAndEpoch(st.pid, st.epoch))
                    case None => None
  }

  /** The batch is at the head of its deque, once more attempted. */
  predicate PutBack(s: State, s1: State, i: nat, now: int)
    requires i < |s.batches|
  {
    var b := s.batches[i];
    && s1.batches == s.batches[i := b.(inRetry := true, attempts := b.attempts + 1, lastAttempt := now)]
    && s1.queues == s.queues[b.tp := [i] + Queue(s, b.tp)]
    && s1.incomplete == s.incomplete && s1.completed == s.completed && s1.inFlight == s.inFlight - {i}
  }

  /** The batch is failed for its user, if it was not before, and in no deque. */
  predicate GivenUp(s: State, s1: State, i: nat)
    requires i < |s.batches|
  {
    && s1.queues == s.queues && |s1.batches| == |s.batches|
    && (s.batches[i].final.None? ==>
          && s1.batches == s.batches[i := s.batches[i].(final := Some(Failed))]
          && s1.incomplete == s.incomplete - {i} && s1.completed == s.completed + [i]
               && s1.inFlight == s.inFlight - {i})
    && (s.batches[i].final.Some? ==>
          s1.batches == s.batches && s1.incomplete == s.incomplete && s1.completed == s.completed
            && s1.inFlight == s.inFlight)
  }

  /**
   * An error response in a reachable state puts its batch back at the head of its deque if and only if the
   * error is retriable, the batch has no final state, fewer than `deliveryTimeout` ms have passed since it
   * was created, fewer than `retries` attempts were made, and, for an idempotent producer, the id and epoch
   * it was sent with are still the producer's. Otherwise the batch is given up.
   */
  lemma RetriedWhen(c: Config, s: State, i: nat, err: ProduceError, now: int)
    requires ReachableState(c, s) && Enabled(c, s, Respond(i, Some(err), now))
    ensures Step(c, s, Respond(i, Some(err), now)).Returns?
    ensures var b, s1 := s.batches[i], Step(c, s, Respond(i, Some(err), now)).value;
            var retried :=
              && err.retriable && b.final.None? && now < b.created + c.deliveryTimeout
              && (c.retries.None? || b.attempts < c.retries.value)
              && (!c.idempotent || StampIsCurrent(s, b));
            && (retried <==> i in Queue(s1, b.tp))
            && (if retried then PutBack(s, s1, i, now) else GivenUp(s, s1, i))
  {
    ReachableKeepsInvariant(c, s);
    StepKeepsInvariant(c, s, Respond(i, Some(err), now));
    var s0 := s.(awaiting := s.awaiting - {i});
    assert BatchOk(s, i);
    NotInOwnDeque(s, i);
    assert Match(s0, s.batches[i]) <==> StampIsCurrent(s, s.batches[i]);
    ErrorResponseIs(c, s, i, err, now);
  }

  lemma NotInOwnDeque(s: State, i: nat)
    requires i < |s.batches| && Structure(s) && i in s.awaiting
    ensures i !in Queue(s, s.batches[i].tp)
  {
    assert BatchOk(s, i);
  }

  lemma ErrorResponseIs(c: Config, s: State, i: nat, err: ProduceError, now: int)
    requires Enabled(c, s, Respond(i, Some(err), now)) && Step(c, s, Respond(i, Some(err), now)).Returns?
    ensures var s1 := Step(c, s, Respond(i, Some(err), now)).value;
            if CanRetry(c, s.batches[i], err, now) && (c.idempotent ==> Match(s, s.batches[i])) then
              PutBack(s, s1, i, now)
            else GivenUp(s, s1, i)
  {
    var s0 := s.(awaiting := s.awaiting - {i});
    var r := RetryOrFail(c, s0, i, err, now);
    UnmuteIs(c, r.value, i);
    if !(CanRetry(c, s.batches[i], err, now) && (c.idempotent ==> Match(s0, s.batches[i]))) {
      FailedIsGivenUp(c, s0, i, err);
    }
  }

  lemma FailedIsGivenUp(c: Config, s: State, i: nat, err: ProduceError)
    requires i < |s.batches| && FailBatch(c, s, i, err).Returns?
    ensures GivenUp(s, FailBatch(c, s, i, err).value, i)
  {
  }
}
