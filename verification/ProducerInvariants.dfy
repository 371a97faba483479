/** What every step of the producer pipeline keeps, whatever the network does. */
module ProducerInvariants {
  import opened Common
  import opened ProducerModel

  predicate Queued(s: State, i: nat)
    requires i < |s.batches|
  {
    i in Queue(s, s.batches[i].tp)
  }

  /** A deque holds batches of its own partition, none twice. */
  ghost predicate QueueOk(s: State, tp: TopicPartition) {
    && Distinct(Queue(s, tp))
    && (forall k :: 0 <= k < |Queue(s, tp)| ==> Queue(s, tp)[k] < |s.batches| && s.batches[Queue(s, tp)[k]].tp == tp)
  }

  /**
   * Where one batch can be. Incomplete means exactly: no final state yet, future not
   * completed, and in precisely one of the deque, the in-flight heap, the expiry scan's result.
   */
  ghost predicate BatchOk(s: State, i: nat)
    requires i < |s.batches|
  {
    var b := s.batches[i];
    && (b.final.None? <==> i in s.incomplete)
    && (b.final.Some? <==> i in s.completed)
    && (i in s.incomplete <==> Queued(s, i) || i in s.inFlight || i in s.expired)
    && !(i in s.inFlight && i in s.expired)
    && (Queued(s, i) ==> i !in s.inFlight && i !in s.expired && i !in s.drained && i !in s.awaiting)
    && (Queued(s, i) ==> (b.closed <==> b.inRetry))
    && (i in s.inFlight || i in s.drained || i in s.awaiting ==> b.closed)
    && !(i in s.drained && i in s.awaiting)
    && (i in s.drained || i in s.awaiting ==> b.final != Some(Succeeded))
    && 1 <= |b.records| <= MAX_SEQUENCE
  }

  ghost predicate InRange(s: State) {
    forall i :: i in s.incomplete || i in s.inFlight || i in s.drained || i in s.awaiting || i in s.expired
      || i in s.completed
      ==> i < |s.batches|
  }

  ghost predicate Structure(s: State) {
    && InRange(s)
    && Distinct(s.completed)
    && (forall tp: TopicPartition :: QueueOk(s, tp))
    && (forall i :: 0 <= i < |s.batches| ==> BatchOk(s, i))
  }

  lemma TailMembers(q: seq<nat>)
    requires Distinct(q) && q != []
    ensures Distinct(q[1..])
    ensures forall j :: j in q[1..] <==> j in q && j != q[0]
  {
  }

  /** The state after a record joined batch l, the last of its deque. */
  ghost predicate Joined(s: State, s': State, l: nat) {
    && l < |s.batches| == |s'.batches| && s' == s.(batches := s.batches[l := s'.batches[l]], user := s'.user)
    && |s'.batches[l].records| == |s.batches[l].records| + 1
    && s'.batches[l] == s.batches[l].(records := s'.batches[l].records, openSize := s'.batches[l].openSize,
                                      closedSize := s'.batches[l].closedSize)
  }

  /** The state after a record started a batch of tp. */
  ghost predicate Started(s: State, s': State, tp: TopicPartition) {
    var n := |s.batches|;
    && |s'.batches| == n + 1
    && s' == s.(batches := s.batches + [s'.batches[n]], queues := s.queues[tp := Queue(s, tp) + [n]],
                incomplete := s.incomplete + {n}, user := s'.user)
    && s'.batches[n].tp == tp && s'.batches[n].stamp.None? && s'.batches[n].final.None? && |s'.batches[n].records| == 1
    && !s'.batches[n].closed && !s'.batches[n].inRetry
  }

  lemma AppendIs(c: Config, s: State, e: Event)
    requires e.Append? && Enabled(c, s, e) && QueueOk(s, e.tp)
    ensures var s', q := Step(c, s, e).value, Queue(s, e.tp);
            if JoinsLast(s, e.tp, e.room) then
              var l := q[|q| - 1];
              && Joined(s, s', l) && s.batches[l].tp == e.tp && !s.batches[l].closed
              && |s.batches[l].records| < MAX_SEQUENCE
              && l in q
            else Started(s, s', e.tp)
  {
  }

  lemma JoinKeepsStructure(s: State, s': State, l: nat)
    requires Structure(s) && Joined(s, s', l) && |s.batches[l].records| < MAX_SEQUENCE
    ensures Structure(s')
  {
    forall tp: TopicPartition ensures QueueOk(s', tp) { assert QueueOk(s, tp); }
    forall j | 0 <= j < |s'.batches|
      ensures BatchOk(s', j)
    {
      assert BatchOk(s, j) && (Queued(s', j) <==> Queued(s, j));
    }
  }

  lemma NewBatchKeepsStructure(s: State, s': State, tp0: TopicPartition)
    requires Structure(s) && Started(s, s', tp0)
    ensures Structure(s')
  {
    assert QueueOk(s, tp0) && Queue(s', tp0) == Queue(s, tp0) + [|s.batches|];
    forall tp: TopicPartition ensures QueueOk(s', tp) { assert QueueOk(s, tp); }
    forall j | 0 <= j < |s'.batches| ensures BatchOk(s', j) {
      if j < |s.batches| { assert BatchOk(s, j) && (Queued(s', j) <==> Queued(s, j)); }
    }
  }

  lemma AppendKeepsStructure(c: Config, s: State, e: Event)
    requires Structure(s) && e.Append? && Enabled(c, s, e)
    ensures Structure(Step(c, s, e).value)
  {
    var s', q := Step(c, s, e).value, Queue(s, e.tp);
    assert QueueOk(s, e.tp);
    AppendIs(c, s, e);
    if JoinsLast(s, e.tp, e.room) {
      JoinKeepsStructure(s, s', q[|q| - 1]);
    } else {
      NewBatchKeepsStructure(s, s', e.tp);
    }
  }

  lemma DrainKeepsStructure(c: Config, s: State, e: Event)
    requires Structure(s) && e.Drain? && Enabled(c, s, e)
    ensures Step(c, s, e).Returns? && Structure(Step(c, s, e).value)
  {
    var i := Queue(s, e.tp)[0];
    assert QueueOk(s, e.tp) && BatchOk(s, i);
    TailMembers(Queue(s, e.tp));
    var s' := Step(c, s, e).value;
    forall tp: TopicPartition ensures QueueOk(s', tp) { assert QueueOk(s, tp); }
    forall j | 0 <= j < |s'.batches| ensures BatchOk(s', j) { assert BatchOk(s, j); }
  }

  lemma ExpireQueuedKeepsStructure(c: Config, s: State, e: Event)
    requires Structure(s) && e.ExpireQueued? && Enabled(c, s, e)
    ensures Structure(Step(c, s, e).value)
  {
    var i := Queue(s, e.tp)[0];
    assert QueueOk(s, e.tp) && BatchOk(s, i);
    TailMembers(Queue(s, e.tp));
    var s' := Step(c, s, e).value;
    forall tp: TopicPartition ensures QueueOk(s', tp) { assert QueueOk(s, tp); }
    forall j | 0 <= j < |s'.batches| ensures BatchOk(s', j) { assert BatchOk(s, j); }
  }

  /** ProducerBatch.done on a batch that has left the deque and the expiry scan. */
  lemma DoneKeepsStructure(s: State, s': State, i: nat, f: FinalState)
    requires Structure(s) && i < |s.batches| && !Queued(s, i)
    requires s.batches[i].final != Some(Succeeded)
    requires f.Succeeded? ==> i !in s'.awaiting && i !in s.drained
    requires s'.awaiting <= s.awaiting && s'.expired == s.expired - {i}
    requires s' == s.(awaiting := s'.awaiting, expired := s'.expired, acks := s'.acks,
                      producerId := s'.producerId, sequences := s'.sequences, fatal := s'.fatal)
    ensures Done(s', i, f).Returns? && Structure(Done(s', i, f).value)
  {
    var t := Done(s', i, f).value;
    assert BatchOk(s, i);
    forall tp: TopicPartition ensures QueueOk(t, tp) { assert QueueOk(s, tp); }
    forall j | 0 <= j < |t.batches| ensures BatchOk(t, j) { assert BatchOk(s, j); }
  }

  lemma ReenqueueKeepsStructure(s: State, i: nat, now: int)
    requires Structure(s) && i < |s.batches| && !Queued(s, i) && i !in s.expired && i !in s.drained
    requires s.batches[i].final.None? && s.batches[i].closed
    ensures Structure(Reenqueue(s.(awaiting := s.awaiting - {i}), i, now))
  {
    var t := Reenqueue(s.(awaiting := s.awaiting - {i}), i, now);
    assert Queue(t, s.batches[i].tp) == [i] + Queue(s, s.batches[i].tp);
    forall tp: TopicPartition ensures QueueOk(t, tp) { assert QueueOk(s, tp); }
    forall j | 0 <= j < |t.batches| ensures BatchOk(t, j) { assert BatchOk(s, j); }
  }

  /** Only these two exceptions need more than the structure to be ruled out. */
  ghost predicate Harmless(r: Result) {
    r.Returns? || r.error == NotMuted || r.error == NoSequence
  }

  lemma SameStructure(s: State, s': State)
    requires Structure(s)
    requires s'.drained <= s.drained && s'.awaiting <= s.awaiting
    requires s' == s.(muted := s'.muted, producerId := s'.producerId, sequences := s'.sequences, fatal := s'.fatal,
                      acks := s'.acks, usedPids := s'.usedPids, sends := s'.sends, user := s'.user,
                      drained := s'.drained, awaiting := s'.awaiting, resetDue := s'.resetDue)
    ensures Structure(s')
  {
    forall tp: TopicPartition ensures QueueOk(s', tp) { assert QueueOk(s, tp); }
    forall j | 0 <= j < |s'.batches| ensures BatchOk(s', j) { assert BatchOk(s, j); }
  }

  lemma RetryOrFailKeepsStructure(c: Config, s: State, i: nat, err: ProduceError, now: int)
    requires Structure(s) && i in s.awaiting && s.expired == {}
    ensures var r := RetryOrFail(c, s.(awaiting := s.awaiting - {i}), i, err, now);
            r.Returns? && Structure(r.value)
  {
    var s0 := s.(awaiting := s.awaiting - {i});
    assert BatchOk(s, i);
    if CanRetry(c, s0.batches[i], err, now) && (c.idempotent ==> Match(s0, s0.batches[i])) {
      ReenqueueKeepsStructure(s, i, now);
    } else {
      DoneKeepsStructure(s, NoteFailure(c, s0, i, err), i, Failed);
    }
  }

  lemma SucceedKeepsStructure(c: Config, s: State, i: nat)
    requires Structure(s) && i in s.awaiting && s.expired == {}
    ensures var r := Succeed(c, s.(awaiting := s.awaiting - {i}), i);
            Harmless(r) && (r.Returns? ==> Structure(r.value))
  {
    var s0 := s.(awaiting := s.awaiting - {i}, acks := s.acks + [i]);
    assert BatchOk(s, i);
    DoneKeepsStructure(s, s0, i, Succeeded);
    var d := Done(s0, i, Succeeded).value;
    if CountAck(c, d, i).Returns? {
      SameStructure(d, CountAck(c, d, i).value);
    }
  }

  lemma RespondKeepsStructure(c: Config, s: State, e: Event)
    requires Structure(s) && e.Respond? && Enabled(c, s, e)
    ensures Harmless(Step(c, s, e))
    ensures Step(c, s, e).Returns? ==> Structure(Step(c, s, e).value)
  {
    var s0 := s.(awaiting := s.awaiting - {e.id});
    var r := if e.err.Some? then RetryOrFail(c, s0, e.id, e.err.value, e.now) else Succeed(c, s0, e.id);
    if e.err.Some? {
      RetryOrFailKeepsStructure(c, s, e.id, e.err.value, e.now);
    } else {
      SucceedKeepsStructure(c, s, e.id);
    }
    if Step(c, s, e).Returns? {
      SameStructure(r.value, Step(c, s, e).value);
    }
  }

  lemma ExpireInFlightKeepsStructure(c: Config, s: State, e: Event)
    requires Structure(s) && e.ExpireInFlight? && Enabled(c, s, e)
    ensures Step(c, s, e).Returns? && Structure(Step(c, s, e).value)
  {
    assert BatchOk(s, e.id);
    var s' := Step(c, s, e).value;
    forall tp: TopicPartition ensures QueueOk(s', tp) { assert QueueOk(s, tp); }
    forall j | 0 <= j < |s'.batches| ensures BatchOk(s', j) { assert BatchOk(s, j); }
  }

  /** Conservation over one step, in either delivery mode, with or without idempotence. */
  lemma StepKeepsStructure(c: Config, s: State, e: Event)
    requires Structure(s) && Enabled(c, s, e)
    ensures Harmless(Step(c, s, e)) <==> !e.Compare?
    ensures Step(c, s, e).Returns? ==> Structure(Step(c, s, e).value)
  {
    match e {
      case Append(_, _, _, _, _, _) => AppendKeepsStructure(c, s, e);
      case Drain(_, _) => DrainKeepsStructure(c, s, e);
      case Send(i) =>
        var s' := Step(c, s, e).value;
        forall tp: TopicPartition ensures QueueOk(s', tp) { assert QueueOk(s, tp); }
        forall j | 0 <= j < |s'.batches| ensures BatchOk(s', j) { assert BatchOk(s, j); }
      case ExpireQueued(_, _) => ExpireQueuedKeepsStructure(c, s, e);
      case ExpireInFlight(_, _) => ExpireInFlightKeepsStructure(c, s, e);
      case FailExpired(i) =>
        assert BatchOk(s, i);
        DoneKeepsStructure(s, s.(expired := s.expired - {i}), i, Failed);
      case Compare(_, _) =>
      case Respond(_, _, _) => RespondKeepsStructure(c, s, e);
      case ResetPid => SameStructure(s, Step(c, s, e).value);
      case NewPid(_, _) => SameStructure(s, Step(c, s, e).value);
    }
  }

  // ----- order -------------------------------------------------------------------------

  /** The batch occupies its partition: drained, in flight, or with a request not answered yet. */
  predicate Holds(s: State, i: nat) {
    i in s.inFlight || i in s.drained || i in s.awaiting
  }

  ghost predicate HolderOk(s: State, i: nat)
    requires i < |s.batches|
  {
    var tp := s.batches[i].tp;
    Holds(s, i) ==>
      && tp in s.muted
      && (forall j :: 0 <= j < |s.batches| && Holds(s, j) && s.batches[j].tp == tp ==> j == i)
      && (forall k :: 0 <= k < |Queue(s, tp)| ==> i < Queue(s, tp)[k])
  }

  predicate Live(s: State, i: nat)
    requires i < |s.batches|
  {
    Holds(s, i) || Queued(s, i)
  }

  /** No later request for the same partition is for an older batch, nor can it become so. */
  ghost predicate SendOk(s: State, a: nat)
    requires a < |s.sends|
  {
    && s.sends[a] < |s.batches|
    && (forall b ::
          a < b < |s.sends| && s.sends[b] < |s.batches| && s.batches[s.sends[b]].tp == s.batches[s.sends[a]].tp ==>
            s.sends[a] <= s.sends[b])
    && (forall j: nat :: j < |s.batches| && Live(s, j) && s.batches[j].tp == s.batches[s.sends[a]].tp ==>
          s.sends[a] <= j)
  }

  ghost predicate Ordered(s: State) {
    && (forall i :: 0 <= i < |s.batches| ==> HolderOk(s, i))
    && (forall tp: TopicPartition :: Increasing(Queue(s, tp)))
    && (forall i, j :: 0 <= i < j < |s.batches| ==> s.batches[i].created <= s.batches[j].created)
    && (forall a :: 0 <= a < |s.sends| ==> SendOk(s, a))
  }

  /** Batch i keeps its partition and creation time. */
  predicate SameBirth(s: State, s': State) {
    && |s'.batches| == |s.batches|
    && forall i :: 0 <= i < |s.batches| ==>
         s'.batches[i].tp == s.batches[i].tp && s'.batches[i].created == s.batches[i].created
  }

  /** Steps that only release batches, drop deque heads or change nothing of the order. */
  lemma ReleaseKeepsOrder(s: State, s': State)
    requires Structure(s) && Ordered(s) && SameBirth(s, s') && s'.sends == s.sends
    requires forall i: nat :: Holds(s', i) ==> Holds(s, i)
    requires forall i: nat :: Holds(s', i) && i < |s.batches| ==> s.batches[i].tp in s'.muted
    requires forall tp: TopicPartition ::
               Queue(s', tp) == Queue(s, tp) || (Queue(s, tp) != [] && Queue(s', tp) == Queue(s, tp)[1..])
    ensures Ordered(s')
  {
    forall i | 0 <= i < |s'.batches| ensures HolderOk(s', i) { assert HolderOk(s, i); }
    forall tp: TopicPartition ensures Increasing(Queue(s', tp)) { assert Increasing(Queue(s, tp)); }
    forall a | 0 <= a < |s'.sends| ensures SendOk(s', a) {
      assert SendOk(s, a);
      forall j: nat | j < |s.batches| && Live(s', j) ensures Live(s, j) {}
    }
  }

  lemma AppendKeepsOrder(c: Config, s: State, e: Event)
    requires Structure(s) && Ordered(s) && e.Append? && Enabled(c, s, e)
    ensures Ordered(Step(c, s, e).value)
  {
    var s' := Step(c, s, e).value;
    if JoinsLast(s, e.tp, e.room) {
      assert QueueOk(s, e.tp);
      forall i: nat | Holds(s', i) && i < |s.batches| ensures s.batches[i].tp in s'.muted { assert HolderOk(s, i); }
      ReleaseKeepsOrder(s, s');
    } else {
      NewBatchKeepsOrder(s, s', e.tp);
    }
  }

  lemma NewBatchKeepsOrder(s: State, s': State, tp0: TopicPartition)
    requires Structure(s) && Ordered(s)
    requires |s'.batches| == |s.batches| + 1 && s'.batches[..|s.batches|] == s.batches
    requires s'.batches[|s.batches|].tp == tp0
    requires forall i :: 0 <= i < |s.batches| ==> s.batches[i].created <= s'.batches[|s.batches|].created
    requires s'.queues == s.queues[tp0 := Queue(s, tp0) + [|s.batches|]]
    requires s'.sends == s.sends && s'.inFlight == s.inFlight && s'.drained == s.drained && s'.awaiting == s.awaiting
    requires s'.muted == s.muted
    ensures Ordered(s')
  {
    var n := |s.batches|;
    assert forall i :: 0 <= i < n ==> s'.batches[i] == s.batches[i];
    forall i | 0 <= i < |s'.batches| ensures HolderOk(s', i) { if i < n { assert HolderOk(s, i); } }
    forall tp: TopicPartition ensures Increasing(Queue(s', tp)) { assert Increasing(Queue(s, tp)) && QueueOk(s, tp); }
    forall a | 0 <= a < |s'.sends| ensures SendOk(s', a) {
      assert SendOk(s, a);
      forall j: nat | j < n && Live(s', j) ensures Live(s, j) {}
    }
  }

  lemma DrainKeepsHolders(c: Config, s: State, s': State, tp: TopicPartition)
    requires (forall i :: 0 <= i < |s.batches| ==> HolderOk(s, i)) && QueueOk(s, tp) && Increasing(Queue(s, tp))
    requires Queue(s, tp) != [] && tp !in s.muted && Queue(s, tp)[0] !in s.expired
    requires var i := Queue(s, tp)[0];
             && SameBirth(s, s') && s'.queues == s.queues[tp := Queue(s, tp)[1..]] && s'.muted == s.muted + {tp}
             && s'.inFlight == s.inFlight + {i} && s'.drained == s.drained + {i} && s'.awaiting == s.awaiting
             && s'.expired == s.expired
    ensures forall j :: 0 <= j < |s'.batches| ==> HolderOk(s', j)
  {
    var i := Queue(s, tp)[0];
    assert forall j: nat :: Holds(s', j) <==> Holds(s, j) || j == i;
    forall k | 0 <= k < |s.batches| && Holds(s, k) ensures s.batches[k].tp != tp { assert HolderOk(s, k); }
    assert s.batches[i].tp == tp && forall t: TopicPartition :: t != tp ==> Queue(s', t) == Queue(s, t);
    forall k | 0 <= k < |Queue(s', tp)| ensures i < Queue(s', tp)[k] {
      assert Queue(s', tp)[k] == Queue(s, tp)[k + 1];
    }
    forall j | 0 <= j < |s'.batches| ensures HolderOk(s', j) { assert HolderOk(s, j); }
  }

  lemma DrainKeepsOrder(c: Config, s: State, e: Event)
    requires c.guaranteeMessageOrder && Structure(s) && Ordered(s) && e.Drain? && Enabled(c, s, e)
    ensures Step(c, s, e).Returns? ==> Ordered(Step(c, s, e).value)
  {
    if Step(c, s, e).Returns? {
      var s' := Step(c, s, e).value;
      var i := Queue(s, e.tp)[0];
      assert QueueOk(s, e.tp) && BatchOk(s, i) && Increasing(Queue(s, e.tp)) && Queued(s, i);
      DrainKeepsHolders(c, s, s', e.tp);
      forall tp: TopicPartition ensures Increasing(Queue(s', tp)) { assert Increasing(Queue(s, tp)); }
      forall a | 0 <= a < |s'.sends| ensures SendOk(s', a) {
        assert SendOk(s, a);
        forall j: nat | j < |s.batches| && Live(s', j) ensures Live(s, j) {}
      }
    }
  }

  lemma SendKeepsOrder(c: Config, s: State, e: Event)
    requires Structure(s) && Ordered(s) && e.Send? && Enabled(c, s, e)
    ensures Ordered(Step(c, s, e).value)
  {
    var s' := Step(c, s, e).value;
    assert forall j: nat :: Holds(s', j) <==> Holds(s, j);
    forall j | 0 <= j < |s'.batches| ensures HolderOk(s', j) { assert HolderOk(s, j); }
    assert HolderOk(s, e.id);
    forall tp: TopicPartition ensures Increasing(Queue(s', tp)) { assert Increasing(Queue(s, tp)); }
    forall a | 0 <= a < |s'.sends| ensures SendOk(s', a) {
      forall j: nat | j < |s.batches| && Live(s', j) ensures Live(s, j) {}
      if a < |s.sends| { assert SendOk(s, a) && Live(s, e.id); }
    }
  }

  lemma ReenqueueKeepsOrder(s: State, i: nat, now: int)
    requires Structure(s) && Ordered(s) && i in s.awaiting
    ensures var t := Reenqueue(s.(awaiting := s.awaiting - {i}), i, now);
            Ordered(t.(muted := t.muted - {s.batches[i].tp}))
  {
    var tp := s.batches[i].tp;
    var t := Reenqueue(s.(awaiting := s.awaiting - {i}), i, now);
    var s' := t.(muted := t.muted - {tp});
    assert HolderOk(s, i) && BatchOk(s, i);
    assert Queue(s', tp) == [i] + Queue(s, tp);
    assert forall j: nat :: Holds(s', j) <==> Holds(s, j) && j != i;
    forall j | 0 <= j < |s'.batches| ensures HolderOk(s', j) { assert HolderOk(s, j); }
    forall tp: TopicPartition ensures Increasing(Queue(s', tp)) { assert Increasing(Queue(s, tp)); }
    forall a | 0 <= a < |s'.sends| ensures SendOk(s', a) {
      assert SendOk(s, a);
      forall j: nat | j < |s.batches| && Live(s', j) ensures Live(s, j) {}
    }
  }

  /** s' differs from s only in ways that settling one batch for good can cause. */
  predicate Settles(s: State, s': State) {
    && SameBirth(s, s') && s'.queues == s.queues && s'.sends == s.sends && s'.muted == s.muted
    && s'.inFlight <= s.inFlight && s'.drained == s.drained && s'.awaiting == s.awaiting && s'.expired == s.expired
  }

  lemma DoneSettles(s: State, i: nat, f: FinalState)
    requires i < |s.batches| && Done(s, i, f).Returns?
    ensures Settles(s, Done(s, i, f).value)
  {
  }

  lemma FailSettles(c: Config, s: State, i: nat, err: ProduceError)
    requires i < |s.batches| && FailBatch(c, s, i, err).Returns?
    ensures Settles(s, FailBatch(c, s, i, err).value)
  {
    DoneSettles(NoteFailure(c, s, i, err), i, Failed);
  }

  lemma SucceedSettles(c: Config, s: State, i: nat)
    requires i < |s.batches| && Succeed(c, s, i).Returns?
    ensures Settles(s, Succeed(c, s, i).value)
  {
    DoneSettles(s.(acks := s.acks + [i]), i, Succeeded);
  }

  lemma SettleAndUnmuteKeepsOrder(c: Config, s: State, i: nat, t: State)
    requires c.guaranteeMessageOrder && Structure(s) && Ordered(s) && i in s.awaiting && i !in t.inFlight
    requires Settles(s.(awaiting := s.awaiting - {i}), t)
    ensures Unmute(c, t, i).Returns? && Ordered(Unmute(c, t, i).value)
  {
    assert HolderOk(s, i) && BatchOk(s, i);
    var s' := t.(muted := t.muted - {s.batches[i].tp});
    forall j: nat | Holds(s', j) && j < |s.batches| ensures s.batches[j].tp in s'.muted { assert HolderOk(s, j); }
    ReleaseKeepsOrder(s, s');
  }

  lemma ErrorKeepsOrder(c: Config, s: State, e: Event)
    requires c.guaranteeMessageOrder && Structure(s) && Ordered(s) && e.Respond? && e.err.Some? && Enabled(c, s, e)
    ensures Step(c, s, e).Returns? && Ordered(Step(c, s, e).value)
  {
    var i := e.id;
    assert HolderOk(s, i) && BatchOk(s, i);
    var s0 := s.(awaiting := s.awaiting - {i});
    RetryOrFailKeepsStructure(c, s, i, e.err.value, e.now);
    if CanRetry(c, s.batches[i], e.err.value, e.now) && (c.idempotent ==> Match(s0, s.batches[i])) {
      ReenqueueKeepsOrder(s, i, e.now);
    } else {
      FailSettles(c, s0, i, e.err.value);
      SettleAndUnmuteKeepsOrder(c, s, i, FailBatch(c, s0, i, e.err.value).value);
    }
  }

  lemma AckKeepsOrder(c: Config, s: State, e: Event)
    requires c.guaranteeMessageOrder && Structure(s) && Ordered(s) && e.Respond? && e.err.None? && Enabled(c, s, e)
    ensures Step(c, s, e).Returns? ==> Ordered(Step(c, s, e).value)
    ensures Step(c, s, e).Raises? ==> Step(c, s, e).error == NoSequence
  {
    var i := e.id;
    assert HolderOk(s, i) && BatchOk(s, i);
    var s0 := s.(awaiting := s.awaiting - {i});
    SucceedKeepsStructure(c, s, i);
    if Succeed(c, s0, i).Returns? {
      SucceedSettles(c, s0, i);
      SettleAndUnmuteKeepsOrder(c, s, i, Succeed(c, s0, i).value);
    }
  }

  /** Under guaranteed order a heap never holds two batches. */
  lemma NothingTies(s: State)
    requires forall i :: 0 <= i < |s.batches| ==> HolderOk(s, i)
    ensures forall i: nat, j: nat :: !Tied(s, i, j)
  {
    forall i: nat, j: nat | i < |s.batches| ensures !Tied(s, i, j) { assert HolderOk(s, i); }
  }

  /** One step under guaranteed message order; the only exception left needs the sequence numbers. */
  lemma StepKeepsOrder(c: Config, s: State, e: Event)
    requires c.guaranteeMessageOrder && Structure(s) && Ordered(s) && Enabled(c, s, e)
    ensures Step(c, s, e).Returns? ==> Ordered(Step(c, s, e).value)
    ensures Step(c, s, e).Raises? ==> Step(c, s, e).error == NoSequence
    ensures !e.Compare?
  {
    NothingTies(s);
    StepKeepsStructure(c, s, e);
    match e {
      case Append(_, _, _, _, _, _) => AppendKeepsOrder(c, s, e);
      case Drain(_, _) => DrainKeepsStructure(c, s, e); DrainKeepsOrder(c, s, e);
      case Send(_) => SendKeepsOrder(c, s, e);
      case Respond(_, Some(_), _) => ErrorKeepsOrder(c, s, e);
      case Respond(_, None, _) => AckKeepsOrder(c, s, e);
      case _ => OtherStepsKeepOrder(c, s, e);
    }
  }

  lemma OtherStepsKeepOrder(c: Config, s: State, e: Event)
    requires Structure(s) && Ordered(s) && Enabled(c, s, e)
    requires e.ExpireQueued? || e.ExpireInFlight? || e.FailExpired? || e.ResetPid? || e.NewPid?
    ensures Step(c, s, e).Returns? && Ordered(Step(c, s, e).value)
  {
    StepKeepsStructure(c, s, e);
    if e.ExpireInFlight? { ExpireInFlightKeepsStructure(c, s, e); }
    if e.FailExpired? { assert BatchOk(s, e.id); }
    var s' := Step(c, s, e).value;
    forall j: nat | Holds(s', j) && j < |s.batches| ensures s.batches[j].tp in s'.muted { assert HolderOk(s, j); }
    ReleaseKeepsOrder(s, s');
  }
}
