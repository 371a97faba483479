/**
 * More that every step of an idempotent, ordered producer keeps: stamped batches are older
 * than all that still waits, and what the application appended to a partition is what its
 * batches hold, in order of creation.
 */
module ProducerHistory {
  import opened Common
  import opened ProducerModel
  import opened ProducerInvariants
  import opened ProducerSequences
  import opened ProducerRuns

  /** Nothing that waits or is outstanding is older than stamped batch j of its partition. */
  ghost predicate OldOk(s: State, j: nat)
    requires j < |s.batches|
  {
    s.batches[j].stamp.Some? ==>
      forall i: nat :: i < |s.batches| && Live(s, i) && s.batches[i].tp == s.batches[j].tp ==> j <= i
  }

  /** All younger batches of a queued batch that was never sent are queued too. */
  ghost predicate RestQueued(s: State, x: nat)
    requires x < |s.batches|
  {
    Queued(s, x) && s.batches[x].stamp.None? ==>
      forall y: nat :: x < y < |s.batches| && s.batches[y].tp == s.batches[x].tp ==> Queued(s, y)
  }

  /**
   * A batch of the current producer id has its epoch; a first attempt under it is drained
   * or its request is out; a request that is out, and a batch waiting to be resent, was sent;
   * and what was never stamped was never tried.
   */
  predicate Tracked(s: State, i: nat)
    requires i < |s.batches|
  {
    var b := s.batches[i];
    && (b.stamp.Some? && SamePid(s, b) ==> Match(s, b))
    && (b.stamp.Some? && Match(s, b) && b.final.None? && !b.inRetry ==> i in s.drained || i in s.awaiting)
    && (i in s.awaiting || b.inRetry ==> i in s.sends)
    && (b.stamp.None? ==> b.attempts == 0)
  }

  ghost predicate Dated(c: Config, s: State) {
    && (forall j :: 0 <= j < |s.batches| ==> OldOk(s, j))
    && (forall x :: 0 <= x < |s.batches| ==> RestQueued(s, x))
    && (forall i :: 0 <= i < |s.batches| ==> Tracked(s, i))
    && (forall i :: i in s.expired && i < |s.batches| && s.batches[i].inRetry ==> s.resetDue)
  }

  /** Partition, stamp and records of every batch are kept. */
  ghost predicate KeepsText(s: State, s': State) {
    SameBirth(s, s') && forall i :: 0 <= i < |s.batches| ==> SameWriting(s.batches, s'.batches, i)
  }

  /** What is live was live, and a queued batch that was never sent was queued, with nothing taken from behind it. */
  ghost predicate OnlyReleases(s: State, s': State) {
    && (forall i: nat :: i < |s'.batches| && i < |s.batches| && Live(s', i) ==> Live(s, i))
    && (forall tp: TopicPartition ::
          Queue(s', tp) == Queue(s, tp)
          || (Queue(s, tp) != [] && Queue(s', tp) == Queue(s, tp)[1..])
          || (Queue(s', tp) != [] && Queue(s', tp)[0] < |s.batches| && s.batches[Queue(s', tp)[0]].stamp.Some?
              && Queue(s', tp)[1..] == Queue(s, tp)))
  }

  lemma ReleaseKeepsOld(s: State, s': State, j: nat)
    requires j < |s.batches| && OldOk(s, j) && KeepsText(s, s')
    requires forall i: nat :: i < |s'.batches| && Live(s', i) ==> Live(s, i)
    ensures OldOk(s', j)
  {
    assert SameWriting(s.batches, s'.batches, j);
    forall i: nat | i < |s'.batches| && Live(s', i) && s'.batches[i].tp == s'.batches[j].tp && s'.batches[j].stamp.Some?
      ensures j <= i
    {
      assert SameWriting(s.batches, s'.batches, i);
    }
  }

  /** Popping the head of a sorted deque takes nothing from behind a batch that stays. */
  lemma ReleaseKeepsRest(s: State, s': State, x: nat)
    requires x < |s.batches| && RestQueued(s, x) && KeepsText(s, s') && OnlyReleases(s, s')
    requires Increasing(Queue(s, s.batches[x].tp))
    ensures RestQueued(s', x)
  {
    var tp := s.batches[x].tp;
    var q, q' := Queue(s, tp), Queue(s', tp);
    assert SameWriting(s.batches, s'.batches, x);
    if Queued(s', x) && s'.batches[x].stamp.None? {
      StaysBehind(q, q', x, s.batches);
      forall y: nat | x < y < |s'.batches| && s'.batches[y].tp == tp ensures y in q' {
        assert SameWriting(s.batches, s'.batches, y);
        assert Queued(s, y);
      }
    }
  }

  lemma StaysBehind(q: seq<nat>, q': seq<nat>, x: nat, bs: seq<Batch>)
    requires Increasing(q) && x in q' && x < |bs| && bs[x].stamp.None?
    requires q' == q || (q != [] && q' == q[1..]) || (q' != [] && q'[0] < |bs| && bs[q'[0]].stamp.Some? && q'[1..] == q)
    ensures x in q && forall y :: y in q && x < y ==> y in q'
  {
    if q' == q {
    } else if q != [] && q' == q[1..] {
      var k :| 0 <= k < |q'| && q'[k] == x;
      assert q[k + 1] == x && q[0] < q[k + 1];
      forall y | y in q && x < y ensures y in q' {
        var m :| 0 <= m < |q| && q[m] == y;
        assert q'[m - 1] == y;
      }
    } else {
      assert q' == [q'[0]] + q;
    }
  }

  // ----- the steps ---------------------------------------------------------------------

  lemma AppendKeepsDated(c: Config, s: State, e: Event)
    requires c.idempotent && Structure(s) && Sequenced(s) && Dated(c, s) && e.Append? && Enabled(c, s, e)
    ensures Dated(c, Step(c, s, e).value)
  {
    var s' := Step(c, s, e).value;
    assert QueueOk(s, e.tp);
    if JoinsLast(s, e.tp, e.room) {
      var l := Queue(s, e.tp)[|Queue(s, e.tp)| - 1];
      assert StampOk(s, l);
      forall i | 0 <= i < |s.batches| ensures OldOk(s', i) && RestQueued(s', i) && Tracked(s', i) {
        assert OldOk(s, i) && RestQueued(s, i) && Tracked(s, i);
        JoinKeeps(s, s', l, i);
      }
    } else {
      NewBatchKeepsDated(c, s, s', e.tp);
    }
  }

  lemma JoinKeeps(s: State, s': State, l: nat, i: nat)
    requires i < |s.batches| && OldOk(s, i) && RestQueued(s, i) && Tracked(s, i) && l < |s.batches|
    requires s.batches[l].stamp.None?
    requires |s'.batches| == |s.batches| && s'.batches == s.batches[l := s'.batches[l]]
    requires s'.batches[l] == s.batches[l].(records := s'.batches[l].records, openSize := s'.batches[l].openSize,
                                            closedSize := s'.batches[l].closedSize)
    requires s' == s.(batches := s'.batches, user := s'.user)
    ensures OldOk(s', i) && RestQueued(s', i) && Tracked(s', i)
  {
    assert forall j: nat :: j < |s.batches| ==> (Live(s', j) <==> Live(s, j)) && (Queued(s', j) <==> Queued(s, j));
    forall y: nat | i < y < |s'.batches| && s'.batches[y].tp == s'.batches[i].tp && Queued(s', i)
      && s'.batches[i].stamp.None?
      ensures Queued(s', y)
    {
      assert Queued(s, y);
    }
  }

  lemma NewBatchKeepsDated(c: Config, s: State, s': State, tp: TopicPartition)
    requires Structure(s) && Dated(c, s) && |s'.batches| == |s.batches| + 1 && s'.batches[..|s.batches|] == s.batches
    requires s'.batches[|s.batches|].tp == tp && s'.batches[|s.batches|].stamp.None?
    requires !s'.batches[|s.batches|].inRetry && s'.batches[|s.batches|].attempts == 0
    requires s' == s.(batches := s'.batches, queues := s.queues[tp := Queue(s, tp) + [|s.batches|]],
                      incomplete := s'.incomplete, user := s'.user)
    ensures Dated(c, s')
  {
    var n := |s.batches|;
    assert forall i :: 0 <= i < n ==> s'.batches[i] == s.batches[i];
    assert forall i: nat :: i < n ==> (Live(s', i) <==> Live(s, i)) && (Queued(s', i) <==> Queued(s, i));
    forall i | 0 <= i < |s'.batches| ensures OldOk(s', i) && RestQueued(s', i) && Tracked(s', i) {
      if i < n { assert OldOk(s, i) && RestQueued(s, i) && Tracked(s, i); }
      forall y: nat | i < y < |s'.batches| && s'.batches[y].tp == s'.batches[i].tp && Queued(s', i)
        && s'.batches[i].stamp.None?
        ensures Queued(s', y)
      {
        if y < n { assert Queued(s, y); }
      }
    }
    assert forall i :: i in s.expired ==> i < n;
  }

  lemma DrainKeepsDated(c: Config, s: State, e: Event)
    requires c.idempotent && c.guaranteeMessageOrder && Invariant(c, s) && Dated(c, s) && e.Drain? && Enabled(c, s, e)
    ensures Step(c, s, e).Returns? && Dated(c, Step(c, s, e).value)
  {
    DrainKeepsStructure(c, s, e);
    var s', h := Step(c, s, e).value, Queue(s, e.tp)[0];
    assert QueueOk(s, e.tp) && h in Queue(s, e.tp) && Increasing(Queue(s, e.tp)) && BatchOk(s, h) && StampOk(s, h);
    forall i | 0 <= i < |s'.batches| ensures OldOk(s', i) && RestQueued(s', i) && Tracked(s', i) {
      assert OldOk(s, i) && RestQueued(s, i) && Tracked(s, i);
      DrainKeepsOld(c, s, s', e.tp, h, i);
      DrainKeepsRest(s, s', e.tp, h, i);
    }
  }

  lemma DrainKeepsOld(c: Config, s: State, s': State, tp: TopicPartition, h: nat, j: nat)
    requires (forall i :: 0 <= i < |s.batches| ==> HolderOk(s, i)) && QueueOk(s, tp) && Increasing(Queue(s, tp))
    requires Queue(s, tp) != [] && h == Queue(s, tp)[0] && tp !in s.muted && j < |s.batches| && OldOk(s, j)
    requires |s'.batches| == |s.batches| && s'.batches == s.batches[h := s'.batches[h]]
    requires s'.batches[h].tp == s.batches[h].tp
    requires s'.queues == s.queues[tp := Queue(s, tp)[1..]] && s'.inFlight == s.inFlight + {h}
    requires s'.drained == s.drained + {h}
    requires s'.awaiting == s.awaiting
    ensures OldOk(s', j)
  {
    forall i: nat | i < |s'.batches| && Live(s', i) && s'.batches[i].tp == s'.batches[j].tp && s'.batches[j].stamp.Some?
      ensures j <= i
    {
      assert Live(s, i);
      if j == h && i != h {
        assert HolderOk(s, i);
        var k :| 0 <= k < |Queue(s, tp)| && Queue(s, tp)[k] == i;
        assert Queue(s, tp)[0] < Queue(s, tp)[k];
      }
    }
  }

  lemma DrainKeepsRest(s: State, s': State, tp: TopicPartition, h: nat, x: nat)
    requires QueueOk(s, tp) && Increasing(Queue(s, tp)) && Queue(s, tp) != [] && h == Queue(s, tp)[0] && x < |s.batches|
    requires RestQueued(s, x) && |s'.batches| == |s.batches| && s'.batches == s.batches[h := s'.batches[h]]
    requires s'.batches[h].tp == s.batches[h].tp && s'.queues == s.queues[tp := Queue(s, tp)[1..]]
    ensures RestQueued(s', x)
  {
    TailMembers(Queue(s, tp));
    forall y: nat | x < y < |s'.batches| && s'.batches[y].tp == s'.batches[x].tp && Queued(s', x)
      && s'.batches[x].stamp.None?
      ensures Queued(s', y)
    {
      assert x != h ==> Queued(s, x) && Queued(s, y);
      if s.batches[x].tp == tp && x != h {
        var k :| 0 <= k < |Queue(s, tp)| && Queue(s, tp)[k] == x;
        assert Queue(s, tp)[0] < Queue(s, tp)[k];
      }
    }
  }

  /** Steps that keep all text and only release or put back. */
  lemma QuietStepKeepsDated(c: Config, s: State, s': State)
    requires Dated(c, s) && KeepsText(s, s') && OnlyReleases(s, s')
    requires (forall tp: TopicPartition :: Increasing(Queue(s, tp)))
    requires forall i :: 0 <= i < |s.batches| ==> Tracked(s', i)
    requires forall i :: i in s'.expired && i < |s'.batches| && s'.batches[i].inRetry ==> s'.resetDue
    ensures Dated(c, s')
  {
    forall i | 0 <= i < |s'.batches| ensures OldOk(s', i) && RestQueued(s', i) {
      assert OldOk(s, i) && RestQueued(s, i);
      ReleaseKeepsOld(s, s', i);
      ReleaseKeepsRest(s, s', i);
    }
  }

  /** What a response leaves: all text, other batches, and the producer id unless it is dropped. */
  ghost predicate Responded(s: State, s': State, i: nat) {
    && KeepsText(s, s') && s'.expired == s.expired && s'.resetDue == s.resetDue && s'.drained == s.drained
    && s'.awaiting == s.awaiting - {i} && s'.inFlight <= s.inFlight && (s.fatal ==> s'.fatal)
    && (s'.producerId == s.producerId || s'.producerId.None?)
    && (forall j :: 0 <= j < |s.batches| && j != i ==> s'.batches[j] == s.batches[j])
    && s'.user == s.user && s'.sends == s.sends && s'.usedPids == s.usedPids
  }

  lemma RespondIs(c: Config, s: State, e: Event)
    requires e.Respond? && Enabled(c, s, e) && Step(c, s, e).Returns?
    ensures var s', i := Step(c, s, e).value, e.id;
            && Responded(s, s', i)
            && (s'.queues == s.queues
                  || (s'.batches[i].inRetry
                       && s'.queues == s.queues[s.batches[i].tp := [i] + Queue(s, s.batches[i].tp)]))
            && (s'.batches[i].final.None? ==> s'.batches[i].inRetry)
  {
    if e.err.Some? { ErrorIs(c, s, e); } else { AckIs(c, s, e); }
  }

  lemma RetryIs(c: Config, s: State, e: Event)
    requires e.Respond? && e.err.Some? && Enabled(c, s, e) && Step(c, s, e).Returns?
    requires CanRetry(c, s.batches[e.id], e.err.value, e.now) && (c.idempotent ==> Match(s, s.batches[e.id]))
    ensures var s', i, b := Step(c, s, e).value, e.id, s.batches[e.id];
            s' == s.(awaiting := s.awaiting - {i}, inFlight := s.inFlight - {i}, muted := s'.muted,
                     batches := s.batches[i := b.(inRetry := true, attempts := b.attempts + 1, lastAttempt := e.now)],
                     queues := s.queues[b.tp := [i] + Queue(s, b.tp)])
  {
  }

  /** What a failure tells the TransactionManager touches only the producer id, the sequences and the fatal state. */
  lemma NoteIs(c: Config, s: State, i: nat, err: ProduceError)
    requires i < |s.batches|
    ensures var t := NoteFailure(c, s, i, err);
            && t == s.(producerId := t.producerId, sequences := t.sequences, fatal := t.fatal) && (s.fatal ==> t.fatal)
            && (t.producerId.None? || (t.producerId == s.producerId && t.sequences == s.sequences))
  {
  }

  /**
   * The state after a failure: what it tells the TransactionManager, and the batch failed
   * unless it has a final state.
   */
  lemma FailIs(c: Config, s: State, e: Event)
    requires e.Respond? && e.err.Some? && Enabled(c, s, e) && Step(c, s, e).Returns?
    requires !(CanRetry(c, s.batches[e.id], e.err.value, e.now) && (c.idempotent ==> Match(s, s.batches[e.id])))
    ensures var s', i, b := Step(c, s, e).value, e.id, s.batches[e.id];
            var t := NoteFailure(c, s, i, e.err.value);
            && s'.inFlight <= s.inFlight
            && s' == s.(producerId := t.producerId, sequences := t.sequences, fatal := t.fatal,
                        awaiting := s.awaiting - {i}, inFlight := s'.inFlight, incomplete := s'.incomplete,
                        completed := s'.completed,
                        muted := if c.guaranteeMessageOrder then s.muted - {b.tp} else s.muted,
                        batches := s.batches[i := b.(final := if b.final.None? then Some(Failed) else b.final)])
  {
    var i, s0 := e.id, s.(awaiting := s.awaiting - {e.id});
    var t := NoteFailure(c, s0, i, e.err.value);
    NoteIs(c, s0, i, e.err.value);
    NoteFrame(c, s, s0, i, e.err.value);
    assert Done(t, i, Failed).Returns? && Step(c, s, e) == Unmute(c, Done(t, i, Failed).value, i);
    DoneIs(t, i, Failed);
    UnmuteIs(c, Done(t, i, Failed).value, i);
  }

  lemma NoteFrame(c: Config, s: State, s0: State, i: nat, err: ProduceError)
    requires i < |s.batches| && s0 == s.(awaiting := s0.awaiting)
    ensures var t, t0 := NoteFailure(c, s, i, err), NoteFailure(c, s0, i, err);
            t0.producerId == t.producerId && t0.sequences == t.sequences && t0.fatal == t.fatal
  {
  }

  lemma UnmuteIs(c: Config, s: State, i: nat)
    requires i < |s.batches| && Unmute(c, s, i).Returns?
    ensures Unmute(c, s, i).value ==
            s.(muted := if c.guaranteeMessageOrder then s.muted - {s.batches[i].tp} else s.muted)
  {
  }

  lemma DoneIs(s: State, i: nat, f: FinalState)
    requires i < |s.batches| && Done(s, i, f).Returns?
    ensures var s', b := Done(s, i, f).value, s.batches[i];
            && s'.inFlight <= s.inFlight
            && s' == s.(inFlight := s'.inFlight, incomplete := s'.incomplete, completed := s'.completed,
                        batches := s.batches[i := b.(final := if b.final.None? then Some(f) else b.final)])
  {
    assert s.batches == s.batches[i := s.batches[i]];
  }

  lemma OneBatchResponded(s: State, s': State, i: nat, b: Batch)
    requires i < |s.batches| && s'.batches == s.batches[i := b]
    requires b.tp == s.batches[i].tp && b.stamp == s.batches[i].stamp && b.records == s.batches[i].records
    requires b.created == s.batches[i].created
    requires s'.expired == s.expired && s'.resetDue == s.resetDue && s'.drained == s.drained
    requires s'.awaiting == s.awaiting - {i} && s'.inFlight <= s.inFlight && (s.fatal ==> s'.fatal)
    requires s'.producerId == s.producerId || s'.producerId.None?
    requires s'.user == s.user && s'.sends == s.sends && s'.usedPids == s.usedPids
    ensures Responded(s, s', i)
  {
  }

  lemma ErrorIs(c: Config, s: State, e: Event)
    requires e.Respond? && e.err.Some? && Enabled(c, s, e) && Step(c, s, e).Returns?
    ensures var s', i, b := Step(c, s, e).value, e.id, s.batches[e.id];
            && Responded(s, s', i)
            && (if CanRetry(c, b, e.err.value, e.now) && (c.idempotent ==> Match(s, b)) then
                  && s'.batches[i] == b.(inRetry := true, attempts := b.attempts + 1, lastAttempt := e.now)
                  && s'.queues == s.queues[b.tp := [i] + Queue(s, b.tp)]
                  && s'.producerId == s.producerId && s'.sequences == s.sequences && s'.fatal == s.fatal
                else
                  && s'.batches[i] == b.(final := if b.final.None? then Some(Failed) else b.final)
                  && s'.queues == s.queues
                  && (s'.producerId.None? || s'.sequences == s.sequences))
  {
    if CanRetry(c, s.batches[e.id], e.err.value, e.now) && (c.idempotent ==> Match(s, s.batches[e.id])) {
      RetryIs(c, s, e);
    } else {
      FailIs(c, s, e);
      NoteIs(c, s, e.id, e.err.value);
    }
    var s' := Step(c, s, e).value;
    OneBatchResponded(s, s', e.id, s'.batches[e.id]);
  }

  /** The state after a positive response. */
  lemma SuccessIs(c: Config, s: State, e: Event)
    requires e.Respond? && e.err.None? && Enabled(c, s, e) && Step(c, s, e).Returns?
    ensures var s', i, b := Step(c, s, e).value, e.id, s.batches[e.id];
            && s'.inFlight <= s.inFlight
            && s' == s.(awaiting := s.awaiting - {i}, inFlight := s'.inFlight, incomplete := s'.incomplete,
                        completed := s'.completed, muted := s'.muted, acks := s'.acks, sequences := s'.sequences,
                        batches := s.batches[i := b.(final := if b.final.None? then Some(Succeeded) else b.final)])
            && (if c.idempotent && Match(s, b) then
                  && b.tp in s.sequences
                  && s'.sequences == s.sequences[b.tp := IncrementedSequence(s.sequences[b.tp], |b.records|)]
                else s'.sequences == s.sequences)
  {
    DoneIs(s.(awaiting := s.awaiting - {e.id}, acks := s.acks + [e.id]), e.id, Succeeded);
  }

  lemma AckIs(c: Config, s: State, e: Event)
    requires e.Respond? && e.err.None? && Enabled(c, s, e) && Step(c, s, e).Returns?
    ensures var s', i, b := Step(c, s, e).value, e.id, s.batches[e.id];
            && Responded(s, s', i)
            && s'.batches[i] == b.(final := if b.final.None? then Some(Succeeded) else b.final) && s'.queues == s.queues
            && s'.producerId == s.producerId && s'.fatal == s.fatal
  {
    SuccessIs(c, s, e);
  }

  // ----- every step --------------------------------------------------------------------

  lemma RespondKeepsDated(c: Config, s: State, e: Event)
    requires c.idempotent && c.guaranteeMessageOrder && Invariant(c, s) && Dated(c, s) && e.Respond? && Enabled(c, s, e)
    ensures Step(c, s, e).Returns? && Dated(c, Step(c, s, e).value)
  {
    StepKeepsInvariant(c, s, e);
    RespondIs(c, s, e);
    var s', i := Step(c, s, e).value, e.id;
    assert HolderOk(s, i) && BatchOk(s, i) && StampOk(s, i) && Tracked(s, i);
    forall j | 0 <= j < |s.batches| ensures Tracked(s', j) {
      assert Tracked(s, j);
      RespondKeepsTracked(s, s', i, j);
    }
    assert OnlyReleases(s, s');
    QuietStepKeepsDated(c, s, s');
  }

  lemma RespondKeepsTracked(s: State, s': State, i: nat, j: nat)
    requires i < |s.batches| && j < |s.batches| && Tracked(s, j) && Responded(s, s', i)
    requires i in s.sends && s.batches[i].stamp.Some?
    requires s'.batches[i].final.None? ==> s'.batches[i].inRetry
    ensures Tracked(s', j)
  {
    assert SameWriting(s.batches, s'.batches, j);
  }

  /** The state after an expired batch was failed. */
  lemma FailExpiredIs(c: Config, s: State, e: Event)
    requires e.FailExpired? && Enabled(c, s, e) && Step(c, s, e).Returns?
    ensures var s', i, b := Step(c, s, e).value, e.id, s.batches[e.id];
            && s'.inFlight <= s.inFlight
            && s' == s.(expired := s.expired - {i}, inFlight := s'.inFlight, incomplete := s'.incomplete,
                        completed := s'.completed,
                        batches := s.batches[i := b.(final := if b.final.None? then Some(Failed) else b.final)])
  {
    DoneIs(s.(expired := s.expired - {e.id}), e.id, Failed);
  }

  lemma FailExpiredKeepsDated(c: Config, s: State, e: Event)
    requires c.idempotent && c.guaranteeMessageOrder && Invariant(c, s) && Dated(c, s) && e.FailExpired?
    requires Enabled(c, s, e)
    ensures Step(c, s, e).Returns? && Dated(c, Step(c, s, e).value)
  {
    StepKeepsInvariant(c, s, e);
    FailExpiredIs(c, s, e);
    var s' := Step(c, s, e).value;
    forall j | 0 <= j < |s.batches| ensures Tracked(s', j) { assert Tracked(s, j); }
    QuietStepKeepsDated(c, s, s');
  }

  lemma ExpireQueuedKeepsDated(c: Config, s: State, e: Event)
    requires c.idempotent && c.guaranteeMessageOrder && Invariant(c, s) && Dated(c, s) && e.ExpireQueued?
    requires Enabled(c, s, e)
    ensures Dated(c, Step(c, s, e).value)
  {
    var s' := Step(c, s, e).value;
    ExpiredHeadIsNoAttempt(c, s, e);
    forall j | 0 <= j < |s.batches| ensures Tracked(s', j) { assert Tracked(s, j); }
    QuietStepKeepsDated(c, s, s');
  }

  lemma ExpireInFlightKeepsDated(c: Config, s: State, e: Event)
    requires c.idempotent && c.guaranteeMessageOrder && Invariant(c, s) && Dated(c, s) && e.ExpireInFlight?
    requires Enabled(c, s, e)
    ensures Step(c, s, e).Returns? && Dated(c, Step(c, s, e).value)
  {
    ExpireInFlightKeepsStructure(c, s, e);
    var s' := Step(c, s, e).value;
    forall j | 0 <= j < |s.batches| ensures Tracked(s', j) { assert Tracked(s, j); }
    QuietStepKeepsDated(c, s, s');
  }

  /** An expired deque head is a resend or was never stamped. */
  lemma ExpiredHeadIsNoAttempt(c: Config, s: State, e: Event)
    requires Structure(s) && Sequenced(s) && e.ExpireQueued? && Enabled(c, s, e)
    ensures var h := Queue(s, e.tp)[0]; s.batches[h].stamp.Some? ==> s.batches[h].inRetry
  {
    var h := Queue(s, e.tp)[0];
    assert QueueOk(s, e.tp) && h in Queue(s, e.tp) && BatchOk(s, h) && StampOk(s, h);
  }

  lemma OtherKeepsDated(c: Config, s: State, e: Event)
    requires c.idempotent && c.guaranteeMessageOrder && Invariant(c, s) && Dated(c, s) && Enabled(c, s, e)
    requires e.Send? || e.ResetPid? || e.NewPid?
    ensures Dated(c, Step(c, s, e).value)
  {
    var s' := Step(c, s, e).value;
    forall j | 0 <= j < |s.batches| ensures Tracked(s', j) { assert Tracked(s, j) && StampOk(s, j); }
    QuietStepKeepsDated(c, s, s');
  }

  lemma StepKeepsDated(c: Config, s: State, e: Event)
    requires c.idempotent && c.guaranteeMessageOrder && Invariant(c, s) && Dated(c, s) && Enabled(c, s, e)
    ensures Step(c, s, e).Returns? && Dated(c, Step(c, s, e).value)
  {
    StepKeepsInvariant(c, s, e);
    match e {
      case Append(_, _, _, _, _, _) => AppendKeepsDated(c, s, e);
      case Drain(_, _) => DrainKeepsDated(c, s, e);
      case Respond(_, _, _) => RespondKeepsDated(c, s, e);
      case ExpireQueued(_, _) => ExpireQueuedKeepsDated(c, s, e);
      case ExpireInFlight(_, _) => ExpireInFlightKeepsDated(c, s, e);
      case FailExpired(_) => FailExpiredKeepsDated(c, s, e);
      case Send(_) => OtherKeepsDated(c, s, e);
      case Compare(_, _) => assert false;
      case ResetPid => OtherKeepsDated(c, s, e);
      case NewPid(_, _) => OtherKeepsDated(c, s, e);
    }
  }

  // ----- what the application appended -------------------------------------------------

  /** The records of the partition's batches among the first k, in order of creation. */
  function AllRecords(bs: seq<Batch>, tp: TopicPartition, k: nat): seq<int>
    requires k <= |bs|
  {
    if k == 0 then [] else AllRecords(bs, tp, k - 1) + if bs[k - 1].tp == tp then bs[k - 1].records else []
  }

  ghost predicate UserOk(s: State, tp: TopicPartition) {
    UserRecords(s, tp) == AllRecords(s.batches, tp, |s.batches|)
  }

  lemma {:induction false} AllRecordsFrame(bs: seq<Batch>, bs': seq<Batch>, tp: TopicPartition, k: nat)
    requires k <= |bs| && k <= |bs'|
    requires forall i :: 0 <= i < k ==> bs'[i].tp == bs[i].tp && (bs[i].tp == tp ==> bs'[i].records == bs[i].records)
    ensures AllRecords(bs', tp, k) == AllRecords(bs, tp, k)
  {
    if k > 0 { AllRecordsFrame(bs, bs', tp, k - 1); }
  }

  lemma {:induction false} NothingAfter(bs: seq<Batch>, tp: TopicPartition, k: nat, n: nat)
    requires k <= n <= |bs| && forall i :: k <= i < n ==> bs[i].tp != tp
    ensures AllRecords(bs, tp, n) == AllRecords(bs, tp, k)
    decreases n - k
  {
    if k < n { NothingAfter(bs, tp, k, n - 1); }
  }

  /** A record that joins the youngest batch of its partition comes last. */
  lemma JoinIsLast(bs: seq<Batch>, bs': seq<Batch>, tp: TopicPartition, l: nat, rec: int)
    requires l < |bs| == |bs'| && bs' == bs[l := bs'[l]] && bs[l].tp == bs'[l].tp == tp
    requires bs'[l].records == bs[l].records + [rec]
    requires forall i :: l < i < |bs| ==> bs[i].tp != tp
    ensures AllRecords(bs', tp, |bs'|) == AllRecords(bs, tp, |bs|) + [rec]
  {
    AllRecordsFrame(bs, bs', tp, l);
    NothingAfter(bs, tp, l + 1, |bs|);
    NothingAfter(bs', tp, l + 1, |bs'|);
    OneMoreRecord(AllRecords(bs, tp, l), bs[l].records, rec);
  }

  lemma OneMoreRecord(a: seq<int>, b: seq<int>, rec: int)
    ensures a + (b + [rec]) == (a + b) + [rec]
  {
  }

  lemma YoungestIsLast(c: Config, s: State, tp: TopicPartition)
    requires Structure(s) && Dated(c, s) && Increasing(Queue(s, tp)) && Queue(s, tp) != []
    requires var l := Queue(s, tp)[|Queue(s, tp)| - 1]; l < |s.batches| && s.batches[l].stamp.None?
    ensures var l := Queue(s, tp)[|Queue(s, tp)| - 1];
            s.batches[l].tp == tp && forall i :: l < i < |s.batches| ==> s.batches[i].tp != tp
  {
    var q := Queue(s, tp);
    var l := q[|q| - 1];
    assert QueueOk(s, tp) && l in q && RestQueued(s, l);
    LastIsLargest(q);
    assert forall i: nat :: l < i < |s.batches| && s.batches[i].tp == tp ==> Queued(s, i);
  }

  lemma LastIsLargest(q: seq<nat>)
    requires Increasing(q) && q != []
    ensures forall i :: i in q ==> i <= q[|q| - 1]
  {
    forall i | i in q ensures i <= q[|q| - 1] {
      var k :| 0 <= k < |q| && q[k] == i;
      if k < |q| - 1 { assert q[k] < q[|q| - 1]; }
    }
  }

  lemma AppendKeepsUser(c: Config, s: State, e: Event, tp: TopicPartition)
    requires c.idempotent && c.guaranteeMessageOrder && Invariant(c, s) && Dated(c, s) && e.Append? && Enabled(c, s, e)
    requires UserOk(s, tp)
    ensures UserOk(Step(c, s, e).value, tp)
  {
    assert QueueOk(s, e.tp);
    if JoinsLast(s, e.tp, e.room) {
      var l := Queue(s, e.tp)[|Queue(s, e.tp)| - 1];
      assert StampOk(s, l) && Increasing(Queue(s, e.tp));
      YoungestIsLast(c, s, e.tp);
      JoinKeepsUser(c, s, e, l, tp);
    } else {
      NewBatchKeepsUser(c, s, e, tp);
    }
  }

  lemma JoinKeepsUser(c: Config, s: State, e: Event, l: nat, tp: TopicPartition)
    requires e.Append? && Enabled(c, s, e) && JoinsLast(s, e.tp, e.room) && UserOk(s, tp)
    requires l == Queue(s, e.tp)[|Queue(s, e.tp)| - 1] && l < |s.batches| && s.batches[l].tp == e.tp
    requires forall i :: l < i < |s.batches| ==> s.batches[i].tp != e.tp
    ensures UserOk(Step(c, s, e).value, tp)
  {
    var s' := Step(c, s, e).value;
    if tp == e.tp {
      JoinIsLast(s.batches, s'.batches, tp, l, e.rec);
    } else {
      AllRecordsFrame(s.batches, s'.batches, tp, |s.batches|);
    }
  }

  lemma NewBatchKeepsUser(c: Config, s: State, e: Event, tp: TopicPartition)
    requires e.Append? && Enabled(c, s, e) && !JoinsLast(s, e.tp, e.room) && UserOk(s, tp)
    ensures UserOk(Step(c, s, e).value, tp)
  {
    AllRecordsFrame(s.batches, Step(c, s, e).value.batches, tp, |s.batches|);
  }

  lemma StepKeepsUser(c: Config, s: State, e: Event, tp: TopicPartition)
    requires c.idempotent && c.guaranteeMessageOrder && Invariant(c, s) && Dated(c, s) && Enabled(c, s, e)
    requires UserOk(s, tp)
    ensures Step(c, s, e).Returns? && UserOk(Step(c, s, e).value, tp)
  {
    StepKeepsInvariant(c, s, e);
    if e.Append? {
      AppendKeepsUser(c, s, e, tp);
    } else {
      TextKept(c, s, e);
      forall i | 0 <= i < |s.batches| ensures Step(c, s, e).value.batches[i].tp == s.batches[i].tp
                                           && Step(c, s, e).value.batches[i].records == s.batches[i].records {}
      AllRecordsFrame(s.batches, Step(c, s, e).value.batches, tp, |s.batches|);
    }
  }

  /** Only appending changes records or adds batches. */
  lemma TextKept(c: Config, s: State, e: Event)
    requires Structure(s) && Enabled(c, s, e) && !e.Append? && Step(c, s, e).Returns?
    ensures var s' := Step(c, s, e).value;
            && |s'.batches| == |s.batches| && s'.user == s.user
            && forall i :: 0 <= i < |s.batches| ==>
                 s'.batches[i].tp == s.batches[i].tp && s'.batches[i].records == s.batches[i].records
  {
    match e {
      case Respond(_, _, _) => RespondKeepsText(c, s, e);
      case FailExpired(_) => FailExpiredIs(c, s, e);
      case Drain(_, _) => DrainKeepsText(c, s, e);
      case Send(_) =>
      case ExpireQueued(_, _) =>
      case ExpireInFlight(_, _) =>
      case Compare(_, _) => assert false;
      case ResetPid =>
      case NewPid(_, _) =>
    }
  }

  lemma RespondKeepsText(c: Config, s: State, e: Event)
    requires e.Respond? && Enabled(c, s, e) && Step(c, s, e).Returns?
    ensures var s' := Step(c, s, e).value;
            && |s'.batches| == |s.batches| && s'.user == s.user
            && forall i :: 0 <= i < |s.batches| ==>
                 s'.batches[i].tp == s.batches[i].tp && s'.batches[i].records == s.batches[i].records
  {
    RespondIs(c, s, e);
    forall i | 0 <= i < |s.batches|
      ensures Step(c, s, e).value.batches[i].tp == s.batches[i].tp
      ensures Step(c, s, e).value.batches[i].records == s.batches[i].records
    {
      assert SameWriting(s.batches, Step(c, s, e).value.batches, i);
    }
  }

  lemma DrainKeepsText(c: Config, s: State, e: Event)
    requires e.Drain? && Enabled(c, s, e) && Step(c, s, e).Returns?
    ensures var s' := Step(c, s, e).value;
            && |s'.batches| == |s.batches| && s'.user == s.user
            && forall i :: 0 <= i < |s.batches| ==>
                 s'.batches[i].tp == s.batches[i].tp && s'.batches[i].records == s.batches[i].records
  {
  }
}
