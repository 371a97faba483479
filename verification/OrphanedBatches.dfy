/**
 * The other half of safe delivery: from every state in which a batch is orphaned the run can
 * go on so that a later batch is acknowledged and in no log. The broker takes the later batch,
 * which carries the sequence of the orphaned one, for its resend. The clock stands still
 * meanwhile, so that nothing expires that has not expired already.
 */
module OrphanedBatches {
  import opened Common
  import opened ProducerModel
  import opened ProducerInvariants
  import opened ProducerSequences
  import opened ProducerRuns
  import opened ProducerHistory
  import opened ProducerRounds
  import opened ExactlyOnce

  /** Some acknowledged batch is not in its log. */
  ghost predicate Lost(w: World) {
    exists i: nat :: i < |w.producer.batches| && w.producer.batches[i].final == Some(Succeeded)
      && i !in Log(w, w.producer.batches[i].tp)
  }

  /** The run can go on so that an acknowledged batch is lost. */
  ghost predicate CanLose(c: Config, w: World) {
    exists es :: PossibleRun(c, w, es) && Lost(WorldRun(c, w, es))
  }

  lemma LoseNow(c: Config, w: World)
    requires Lost(w)
    ensures CanLose(c, w)
  {
    assert PossibleRun(c, w, []) && WorldRun(c, w, []) == w;
  }

  lemma LoseLater(c: Config, w: World, we: WorldEvent)
    requires Possible(c, w, we) && CanLose(c, WorldStep(c, w, we))
    ensures CanLose(c, w)
  {
    var es :| PossibleRun(c, WorldStep(c, w, we), es) && Lost(WorldRun(c, WorldStep(c, w, we), es));
    assert ([we] + es)[0] == we && ([we] + es)[1..] == es;
    assert PossibleRun(c, w, [we] + es) && WorldRun(c, w, [we] + es) == WorldRun(c, WorldStep(c, w, we), es);
  }

  /** If a batch can be lost from w1, it can from w. */
  ghost predicate Leads(c: Config, w: World, w1: World) {
    CanLose(c, w1) ==> CanLose(c, w)
  }

  lemma StepLeads(c: Config, w: World, we: WorldEvent)
    requires Possible(c, w, we)
    ensures Leads(c, w, WorldStep(c, w, we))
  {
    if CanLose(c, WorldStep(c, w, we)) { LoseLater(c, w, we); }
  }

  // ----- the state a batch is orphaned in ----------------------------------------------

  /** Everything the machine keeps, in an idempotent, ordered producer. */
  ghost predicate Kept(c: Config, w: World) {
    c.idempotent && c.guaranteeMessageOrder && Invariant(c, w.producer) && Dated(c, w.producer)
      && RoundOk(w.producer, w.clock)
  }

  lemma StepKeepsAll(c: Config, w: World, e: Event)
    requires Kept(c, w) && Possible(c, w, Client(e))
    ensures Step(c, w.producer, e).Returns? && Kept(c, WorldStep(c, w, Client(e)))
    ensures WorldStep(c, w, Client(e)) == w.(producer := Step(c, w.producer, e).value, clock := Ticked(w.clock, e))
    ensures Leads(c, w, WorldStep(c, w, Client(e)))
  {
    StepKeepsInvariant(c, w.producer, e);
    StepKeepsDated(c, w.producer, e);
    StepKeepsRound(c, w.producer, w.clock, e);
    StepLeads(c, w, Client(e));
  }

  /** Batch b has failed, and the producer has its producer id and its sequence still. */
  ghost predicate Orphaned(c: Config, w: World, tp: TopicPartition, b: nat) {
    var s, bs := w.producer, w.producer.batches;
    && Kept(c, w) && s.producerId.Some? && !s.resetDue && !s.fatal
    && Under(bs, tp, s.producerId.value.pid, b) && Match(s, bs[b]) && bs[b].final == Some(Failed)
    && SequenceNumber(s, tp) == bs[b].stamp.value.sequence
    && Below(Log(w, tp), |bs|) && Unsent(bs, Queue(s, tp))
  }

  ghost predicate Below(log: seq<nat>, n: nat) {
    forall k :: 0 <= k < |log| ==> log[k] < n
  }

  /** No batch of a deque was ever stamped. */
  ghost predicate Unsent(bs: seq<Batch>, q: seq<nat>) {
    forall k :: 0 <= k < |q| ==> q[k] < |bs| && bs[q[k]].stamp.None?
  }

  /** The broker remembers batch b as the last of its producer id. */
  predicate Remembered(w: World, tp: TopicPartition, b: nat) {
    b < |w.producer.batches| && w.producer.batches[b].stamp.Some?
      && TailAt(w.tails, tp, w.producer.batches[b].stamp.value.pid) == Some(TailOf(w.producer.batches[b]))
  }

  /** The broker expects batch b. */
  predicate Awaited(w: World, tp: TopicPartition, b: nat) {
    b < |w.producer.batches| && w.producer.batches[b].stamp.Some?
      && Expected(w, tp, w.producer.batches[b].stamp.value.pid) == w.producer.batches[b].stamp.value.sequence
  }

  /** The broker knows batch b or expects it. */
  predicate Placed(w: World, tp: TopicPartition, b: nat) {
    Remembered(w, tp, b) || Awaited(w, tp, b)
  }

  /** Steps that leave b, the producer id and the sequence number alone. */
  lemma QuietKeepsOrphaned(c: Config, w: World, w': World, tp: TopicPartition, b: nat)
    requires Orphaned(c, w, tp, b) && Kept(c, w') && w' == w.(producer := w'.producer, clock := w'.clock)
    requires var s, s' := w.producer, w'.producer;
             && s'.producerId == s.producerId && SequenceNumber(s', tp) == SequenceNumber(s, tp)
             && s'.resetDue == s.resetDue && s'.fatal == s.fatal
             && |s.batches| <= |s'.batches| && s'.batches[b] == s.batches[b] && Unsent(s'.batches, Queue(s', tp))
    ensures Orphaned(c, w', tp, b)
    ensures Remembered(w, tp, b) ==> Remembered(w', tp, b)
    ensures Placed(w, tp, b) ==> Placed(w', tp, b)
  {
    assert Log(w', tp) == Log(w, tp);
  }

  // ----- no reset is coming ------------------------------------------------------------

  /** What is left of the resends is no more than there was. */
  ghost predicate FewerResends(s: State, s': State) {
    && !s'.resetDue
    && forall r: nat :: Resend(s', r) ==>
         && Resend(s, r) && s'.batches[r].created == s.batches[r].created
         && (Queued(s', r) ==> Queued(s, r)) && (r in s'.inFlight ==> r in s.inFlight)
         && (r in s'.inFlight && r !in s'.awaiting && r !in s'.drained ==> r !in s.awaiting && r !in s.drained)
  }

  lemma StaysCalm(c: Config, s: State, k: Clock, s': State)
    requires !Pressing(c, s, k) && FewerResends(s, s')
    ensures !Pressing(c, s', k)
  {
    forall r: nat ensures !Found(c, s', k, r) && !Overdue(c, s', k, r) {
      assert Resend(s', r) ==> Resend(s, r) && !Found(c, s, k, r) && !Overdue(c, s, k, r);
    }
  }

  // ----- the scans are brought to their end --------------------------------------------

  /** The batches the scans can still find. */
  function Unscanned(s: State): set<nat> { s.incomplete - s.expired }

  lemma FailFoundIs(c: Config, s: State, i: nat)
    requires Structure(s) && i in s.expired
    ensures i < |s.batches| && Enabled(c, s, FailExpired(i)) && Step(c, s, FailExpired(i)).Returns?
    ensures Step(c, s, FailExpired(i)).value ==
              s.(expired := s.expired - {i}, inFlight := s.inFlight - {i}, incomplete := s.incomplete - {i},
                 completed := s.completed + [i], batches := s.batches[i := s.batches[i].(final := Some(Failed))])
  {
    assert BatchOk(s, i);
  }

  lemma {:induction false} ScanLeads(c: Config, w: World, tp: TopicPartition, b: nat) returns (w': World)
    requires Orphaned(c, w, tp, b) && !ResetComing(c, w) && w.clock.phase.Scanning?
    ensures Leads(c, w, w') && Orphaned(c, w', tp, b) && !ResetComing(c, w')
    ensures w' == w.(producer := w'.producer, clock := ScanEnded(w.clock)) && ScanEnds(c, w'.producer, w.clock)
    ensures w'.producer.drained == w.producer.drained && w'.producer.awaiting == w.producer.awaiting
    ensures w'.producer.sends == w.producer.sends && w'.producer.muted == w.producer.muted
    ensures (Placed(w, tp, b) ==> Placed(w', tp, b)) && (Remembered(w, tp, b) ==> Remembered(w', tp, b))
    decreases |Unscanned(w.producer)|, |w.producer.expired|
  {
    var s, k := w.producer, w.clock;
    if s.expired != {} {
      var i: nat :| i in s.expired;
      var w1 := FailsFound(c, w, tp, b, i);
      w' := ScanLeads(c, w1, tp, b);
    } else if t: TopicPartition :| !HeadLives(c, s, t, k.phase.round) {
      var w1 := PopsHead(c, w, tp, b, t);
      w' := ScanLeads(c, w1, tp, b);
    } else if i: nat :| i in s.inFlight && i < |s.batches| && s.batches[i].Expired(c.deliveryTimeout, k.phase.scan) {
      var w1 := PopsInFlight(c, w, tp, b, i);
      w' := ScanLeads(c, w1, tp, b);
    } else {
      w' := WorldStep(c, w, Finish);
      StepLeads(c, w, Finish);
      EndScan(c, s, k);
      FinishStaysCalm(c, w);
      QuietKeepsOrphaned(c, w, w', tp, b);
    }
  }

  lemma FinishStaysCalm(c: Config, w: World)
    requires Possible(c, w, Finish) && !ResetComing(c, w)
    ensures !ResetComing(c, WorldStep(c, w, Finish))
  {
    var s, k := w.producer, w.clock;
    forall r: nat ensures !Found(c, s, ScanEnded(k), r) && !Overdue(c, s, ScanEnded(k), r) {
      assert !Found(c, s, k, r) && !Overdue(c, s, k, r);
    }
  }

  /** What a step of the scans leaves as it was. */
  ghost predicate Scans(c: Config, w: World, w1: World, tp: TopicPartition, b: nat) {
    && Leads(c, w, w1) && Orphaned(c, w1, tp, b) && !ResetComing(c, w1)
    && w1 == w.(producer := w1.producer)
    && w1.producer.drained == w.producer.drained && w1.producer.awaiting == w.producer.awaiting
    && w1.producer.sends == w.producer.sends && w1.producer.muted == w.producer.muted
    && (Placed(w, tp, b) ==> Placed(w1, tp, b)) && (Remembered(w, tp, b) ==> Remembered(w1, tp, b))
  }

  lemma FailsFound(c: Config, w: World, tp: TopicPartition, b: nat, i: nat) returns (w1: World)
    requires Orphaned(c, w, tp, b) && !ResetComing(c, w) && w.clock.phase.Scanning? && i in w.producer.expired
    ensures Scans(c, w, w1, tp, b) && Unscanned(w1.producer) == Unscanned(w.producer)
    ensures w1.producer.expired == w.producer.expired - {i}
  {
    var s, e := w.producer, FailExpired(i);
    FailFoundIs(c, s, i);
    assert BatchOk(s, b) && BatchOk(s, i) && i != b && OnTime(w.clock, e);
    StepKeepsAll(c, w, e);
    w1 := WorldStep(c, w, Client(e));
    assert Queue(w1.producer, tp) == Queue(s, tp);
    QuietKeepsOrphaned(c, w, w1, tp, b);
    StaysCalm(c, s, w.clock, w1.producer);
    assert Unscanned(w1.producer) == Unscanned(s);
  }

  lemma PopsHead(c: Config, w: World, tp: TopicPartition, b: nat, t: TopicPartition) returns (w1: World)
    requires Orphaned(c, w, tp, b) && !ResetComing(c, w) && w.clock.phase.Scanning? && w.producer.expired == {}
    requires !HeadLives(c, w.producer, t, w.clock.phase.round)
    ensures Scans(c, w, w1, tp, b) && |Unscanned(w1.producer)| < |Unscanned(w.producer)|
  {
    var s, e := w.producer, ExpireQueued(t, w.clock.phase.round);
    var h := Queue(s, t)[0];
    assert QueueOk(s, t) && h in Queue(s, t) && BatchOk(s, h) && BatchOk(s, b) && h != b;
    NoResendExpires(c, w, h);
    StepKeepsAll(c, w, e);
    w1 := WorldStep(c, w, Client(e));
    PopIs(c, s, t, w.clock.phase.round);
    QuietKeepsOrphaned(c, w, w1, tp, b);
    StaysCalm(c, s, w.clock, w1.producer);
    assert Unscanned(w1.producer) == Unscanned(s) - {h} && h in Unscanned(s);
  }

  /** An expired head that is no resend is popped. */
  lemma PopIs(c: Config, s: State, t: TopicPartition, now: int)
    requires Structure(s) && Enabled(c, s, ExpireQueued(t, now)) && !s.resetDue && !s.batches[Queue(s, t)[0]].inRetry
    ensures var s', h := Step(c, s, ExpireQueued(t, now)).value, Queue(s, t)[0];
            && FewerResends(s, s') && s'.expired == s.expired + {h} && s'.incomplete == s.incomplete
            && (forall j :: 0 <= j < |s.batches| && j != h ==> s'.batches[j] == s.batches[j])
            && (forall tp: TopicPartition :: Unsent(s.batches, Queue(s, tp)) ==> Unsent(s'.batches, Queue(s', tp)))
  {
    assert QueueOk(s, t);
    TailMembers(Queue(s, t));
  }

  /** While no reset is coming the scans find no resend. */
  lemma NoResendExpires(c: Config, w: World, h: nat)
    requires !ResetComing(c, w) && w.clock.phase.Scanning? && h < |w.producer.batches|
    requires w.producer.batches[h].final.None?
    requires (Queued(w.producer, h) && ExpiredAt(c, w.producer, h, w.clock.phase.round))
          || (h in w.producer.inFlight && ExpiredAt(c, w.producer, h, w.clock.phase.scan))
    ensures !w.producer.batches[h].inRetry
  {
    assert !Found(c, w.producer, w.clock, h);
  }

  lemma PopsInFlight(c: Config, w: World, tp: TopicPartition, b: nat, i: nat) returns (w1: World)
    requires Orphaned(c, w, tp, b) && !ResetComing(c, w) && w.clock.phase.Scanning? && w.producer.expired == {}
    requires i in w.producer.inFlight && ExpiredAt(c, w.producer, i, w.clock.phase.scan)
    ensures Scans(c, w, w1, tp, b) && |Unscanned(w1.producer)| < |Unscanned(w.producer)|
  {
    var s, e := w.producer, ExpireInFlight(i, w.clock.now);
    assert BatchOk(s, i) && BatchOk(s, b) && i != b;
    NoResendExpires(c, w, i);
    StepKeepsAll(c, w, e);
    w1 := WorldStep(c, w, Client(e));
    assert Queue(w1.producer, tp) == Queue(s, tp) && w1.clock == w.clock;
    QuietKeepsOrphaned(c, w, w1, tp, b);
    StaysCalm(c, s, w.clock, w1.producer);
    assert Unscanned(w1.producer) == Unscanned(s) - {i} && i in Unscanned(s);
  }

  // ----- the partition is freed --------------------------------------------------------

  /** An error that is not retriable, and neither fatal nor about the sequence. */
  const REJECTION := ProduceError(false, false, false)

  /** A rejected request: its batch is failed, if it was not yet, and nothing else changes. */
  lemma RejectionIs(c: Config, s: State, e: Event)
    requires c.guaranteeMessageOrder && e.Respond? && e.err == Some(REJECTION) && Enabled(c, s, e)
    requires Step(c, s, e).Returns?
    ensures var s', i, b := Step(c, s, e).value, e.id, s.batches[e.id];
            && s'.inFlight <= s.inFlight
            && s' == s.(awaiting := s.awaiting - {i}, inFlight := s'.inFlight, incomplete := s'.incomplete,
                        completed := s'.completed, muted := s.muted - {b.tp},
                        batches := s.batches[i := b.(final := if b.final.None? then Some(Failed) else b.final)])
  {
    FailIs(c, s, e);
  }

  /** The partition is free, or the request of the orphaned batch is all that holds it. */
  ghost predicate Releasable(w: World, tp: TopicPartition, b: nat) {
    tp in w.producer.muted ==> b in w.producer.awaiting || b in w.producer.drained
  }

  /** Between rounds, with no reset coming. */
  ghost predicate Resting(c: Config, w: World, tp: TopicPartition, b: nat) {
    Orphaned(c, w, tp, b) && !ResetComing(c, w) && w.clock.phase.Sending? && Releasable(w, tp, b)
  }

  /** All drained batches are sent. */
  lemma {:induction false} SendLeads(c: Config, w: World, tp: TopicPartition, b: nat) returns (w': World)
    requires Resting(c, w, tp, b) && (b in w.producer.drained || b in w.producer.sends) && Placed(w, tp, b)
    ensures Leads(c, w, w') && Resting(c, w', tp, b) && w'.producer.drained == {} && b in w'.producer.sends
    ensures Placed(w', tp, b)
    decreases |w.producer.drained|
  {
    if w.producer.drained == {} {
      w' := w;
    } else {
      var i: nat :| i in w.producer.drained;
      var w1 := SendsOne(c, w, tp, b, i);
      w' := SendLeads(c, w1, tp, b);
    }
  }

  lemma SendsOne(c: Config, w: World, tp: TopicPartition, b: nat, i: nat) returns (w1: World)
    requires Resting(c, w, tp, b) && i in w.producer.drained
    ensures Leads(c, w, w1) && Resting(c, w1, tp, b) && w1.producer.drained == w.producer.drained - {i}
    ensures Placed(w, tp, b) ==> Placed(w1, tp, b)
    ensures b == i || b in w.producer.sends ==> b in w1.producer.sends
  {
    var e := Send(i);
    StepKeepsAll(c, w, e);
    w1 := WorldStep(c, w, Client(e));
    assert w1.producer.sends[|w.producer.sends|] == i;
    assert forall j :: j in w.producer.sends ==> j in w1.producer.sends;
    QuietKeepsOrphaned(c, w, w1, tp, b);
    StaysCalm(c, w.producer, w.clock, w1.producer);
  }

  /** If the broker has not seen the orphaned batch yet, it does so now. */
  lemma ArrivalLeads(c: Config, w: World, tp: TopicPartition, b: nat) returns (w': World)
    requires Resting(c, w, tp, b) && w.producer.drained == {} && b in w.producer.sends && Placed(w, tp, b)
    ensures Leads(c, w, w') && Resting(c, w', tp, b) && w'.producer.drained == {} && Remembered(w', tp, b)
  {
    if Remembered(w, tp, b) {
      w' := w;
    } else {
      w' := WorldStep(c, w, Deliver(b));
      StepLeads(c, w, Deliver(b));
      assert w'.producer == w.producer && Log(w', tp) == Log(w, tp) + [b];
    }
  }

  /** Every request that is out is rejected. */
  lemma {:induction false} AnswerLeads(c: Config, w: World, tp: TopicPartition, b: nat) returns (w': World)
    requires Resting(c, w, tp, b) && w.producer.drained == {} && Remembered(w, tp, b)
    ensures Leads(c, w, w') && Resting(c, w', tp, b) && w'.producer.drained == w'.producer.awaiting == {}
    ensures Remembered(w', tp, b)
    decreases |w.producer.awaiting|
  {
    if w.producer.awaiting == {} {
      w' := w;
    } else {
      var i: nat :| i in w.producer.awaiting;
      var w1 := RejectsOne(c, w, tp, b, i);
      w' := AnswerLeads(c, w1, tp, b);
    }
  }

  lemma RejectsOne(c: Config, w: World, tp: TopicPartition, b: nat, i: nat) returns (w1: World)
    requires Resting(c, w, tp, b) && i in w.producer.awaiting
    ensures Leads(c, w, w1) && Resting(c, w1, tp, b) && w1.producer.awaiting == w.producer.awaiting - {i}
    ensures w1.producer.drained == w.producer.drained && (Remembered(w, tp, b) ==> Remembered(w1, tp, b))
  {
    var s, e := w.producer, Respond(i, Some(REJECTION), w.clock.now);
    assert BatchOk(s, i);
    StepKeepsAll(c, w, e);
    w1 := WorldStep(c, w, Client(e));
    RejectionIs(c, s, e);
    assert Queue(w1.producer, tp) == Queue(s, tp) && w1.clock == w.clock;
    QuietKeepsOrphaned(c, w, w1, tp, b);
    StaysCalm(c, s, w.clock, w1.producer);
  }

  // ----- nothing that is left has expired ----------------------------------------------

  /** Nothing that waits or is in flight has expired. */
  ghost predicate Fresh(c: Config, s: State, now: int) {
    forall i: nat {:trigger Unexpired(c, s, i, now)} :: Unexpired(c, s, i, now)
  }

  predicate Unexpired(c: Config, s: State, i: nat, now: int) {
    i < |s.batches| && (Queued(s, i) || i in s.inFlight) ==> !ExpiredAt(c, s, i, now)
  }

  /** Between rounds, with nothing under way and nothing expired. */
  ghost predicate Idle(c: Config, w: World, tp: TopicPartition, b: nat) {
    && Orphaned(c, w, tp, b) && Remembered(w, tp, b) && w.clock.phase.Sending? && tp !in w.producer.muted
    && w.producer.drained == w.producer.awaiting == {} && Fresh(c, w.producer, w.clock.now)
  }

  /** One round that drains nothing clears out what has expired. */
  lemma CleanLeads(c: Config, w: World, tp: TopicPartition, b: nat) returns (w': World)
    requires Resting(c, w, tp, b) && w.producer.drained == w.producer.awaiting == {} && Remembered(w, tp, b)
    ensures Leads(c, w, w') && Idle(c, w', tp, b)
  {
    var now := w.clock.now;
    var w1 := WorldStep(c, w, Round(now));
    StepLeads(c, w, Round(now));
    BeginRound(c, w.producer, w.clock, now);
    QuietKeepsOrphaned(c, w, w1, tp, b);
    var w2 := WorldStep(c, w1, Scan);
    StepLeads(c, w1, Scan);
    BeginScan(c, w1.producer, w1.clock);
    QuietKeepsOrphaned(c, w1, w2, tp, b);
    RoundStaysCalm(c, w, w2);
    w' := ScanLeads(c, w2, tp, b);
    ScanLeavesFresh(c, w'.producer, w2.clock);
  }

  /** With nothing under way, what the next round finds is what it was sure to find. */
  lemma RoundStaysCalm(c: Config, w: World, w2: World)
    requires !ResetComing(c, w) && w.clock.phase.Sending? && w.producer.drained == w.producer.awaiting == {}
    requires w2 == w.(clock := Clock(w.clock.now, Scanning(w.clock.now, w.clock.now)))
    ensures !ResetComing(c, w2)
  {
    forall r: nat ensures !Found(c, w2.producer, w2.clock, r) && !Overdue(c, w2.producer, w2.clock, r) {
      assert !Overdue(c, w.producer, w.clock, r);
    }
  }

  lemma ScanLeavesFresh(c: Config, s: State, k: Clock)
    requires c.guaranteeMessageOrder && Invariant(c, s) && ScanDone(c, s, k) && k.phase == Scanning(k.now, k.now)
    ensures Fresh(c, s, k.now)
  {
    forall i: nat ensures Unexpired(c, s, i, k.now) {
      if i < |s.batches| && Queued(s, i) {
        var tp := s.batches[i].tp;
        assert QueueOk(s, tp) && Increasing(Queue(s, tp)) && HeadLives(c, s, tp, k.now);
        var m :| 0 <= m < |Queue(s, tp)| && Queue(s, tp)[m] == i;
        assert m > 0 ==> Queue(s, tp)[0] < Queue(s, tp)[m];
      }
    }
  }

  // ----- a round for one partition -----------------------------------------------------

  /** The world after a round that drains the head of one deque and finds nothing expired. */
  ghost function Rounded(c: Config, w: World, tp: TopicPartition): World
    requires Enabled(c, w.producer, Drain(tp, w.clock.now)) && Step(c, w.producer, Drain(tp, w.clock.now)).Returns?
  {
    w.(producer := Step(c, w.producer, Drain(tp, w.clock.now)).value)
  }

  /** The head of the deque can be drained. */
  lemma HeadIsDrainable(c: Config, w: World, tp: TopicPartition, b: nat)
    requires Idle(c, w, tp, b) && Queue(w.producer, tp) != []
    ensures Enabled(c, w.producer, Drain(tp, w.clock.now)) && Step(c, w.producer, Drain(tp, w.clock.now)).Returns?
    ensures var h := Queue(w.producer, tp)[0];
            && h < |w.producer.batches| && Queued(w.producer, h) && w.producer.batches[h].tp == tp && h != b
            && w.producer.batches[h].stamp.None? && !w.producer.batches[h].inRetry && w.producer.batches[h].final.None?
  {
    var s, h := w.producer, Queue(w.producer, tp)[0];
    assert QueueOk(s, tp) && h in Queue(s, tp) && BatchOk(s, h) && StampOk(s, h) && Tracked(s, h) && BatchOk(s, b);
    StepKeepsInvariant(c, s, Drain(tp, w.clock.now));
  }

  lemma RoundLeads(c: Config, w: World, tp: TopicPartition, b: nat)
    requires Idle(c, w, tp, b) && Queue(w.producer, tp) != []
    ensures Enabled(c, w.producer, Drain(tp, w.clock.now)) && Step(c, w.producer, Drain(tp, w.clock.now)).Returns?
    ensures Leads(c, w, Rounded(c, w, tp)) && Kept(c, Rounded(c, w, tp))
  {
    var now := w.clock.now;
    HeadIsDrainable(c, w, tp, b);
    StepLeads(c, w, Round(now));
    BeginRound(c, w.producer, w.clock, now);
    var w1 := WorldStep(c, w, Round(now));
    StepKeepsAll(c, w1, Drain(tp, now));
    var w2 := WorldStep(c, w1, Client(Drain(tp, now)));
    StepLeads(c, w2, Scan);
    BeginScan(c, w2.producer, w2.clock);
    var w3 := WorldStep(c, w2, Scan);
    DrainLeavesFresh(c, w.producer, tp, now, w2.producer);
    FreshEndsScan(c, w3.producer, w3.clock);
    StepLeads(c, w3, Finish);
    EndScan(c, w3.producer, w3.clock);
    assert WorldStep(c, w3, Finish) == Rounded(c, w, tp);
  }

  lemma DrainLeavesFresh(c: Config, s: State, tp: TopicPartition, now: int, s': State)
    requires Structure(s) && Fresh(c, s, now) && Enabled(c, s, Drain(tp, now))
    requires Step(c, s, Drain(tp, now)) == Returns(s')
    ensures Fresh(c, s', now)
  {
    assert QueueOk(s, tp);
    TailMembers(Queue(s, tp));
    forall i: nat ensures Unexpired(c, s', i, now) {
      assert Unexpired(c, s, i, now) && Unexpired(c, s, Queue(s, tp)[0], now);
    }
  }

  lemma FreshEndsScan(c: Config, s: State, k: Clock)
    requires Structure(s) && Fresh(c, s, k.now) && k.phase == Scanning(k.now, k.now) && s.expired == {} && !s.resetDue
    ensures ScanEnds(c, s, k)
  {
    forall tp: TopicPartition ensures HeadLives(c, s, tp, k.now) {
      assert QueueOk(s, tp);
      if Queue(s, tp) != [] { assert Queue(s, tp)[0] in Queue(s, tp) && Unexpired(c, s, Queue(s, tp)[0], k.now); }
    }
    forall i | i in s.inFlight && i < |s.batches| ensures !s.batches[i].Expired(c.deliveryTimeout, k.now) {
      assert Unexpired(c, s, i, k.now);
    }
  }

  /** What a round for the partition makes of its head: stamped as the orphaned batch was. */
  lemma RoundedIs(c: Config, w: World, tp: TopicPartition, b: nat)
    requires Idle(c, w, tp, b) && Queue(w.producer, tp) != []
    requires Enabled(c, w.producer, Drain(tp, w.clock.now)) && Step(c, w.producer, Drain(tp, w.clock.now)).Returns?
    requires Kept(c, Rounded(c, w, tp))
    ensures var w', h := Rounded(c, w, tp), Queue(w.producer, tp)[0];
            && Orphaned(c, w', tp, b) && Remembered(w', tp, b) && w'.producer.drained == {h} && h < |w.producer.batches|
            && w'.producer.awaiting == {} && Queue(w'.producer, tp) == Queue(w.producer, tp)[1..] && h != b
            && w'.producer.batches[h] == w.producer.batches[h].(closed := true, stamp := w.producer.batches[b].stamp)
            && w.producer.batches[h].tp == tp && w'.producer.muted == w.producer.muted + {tp}
            && Fresh(c, w'.producer, w.clock.now)
  {
    HeadIsDrainable(c, w, tp, b);
    var s, w' := w.producer, Rounded(c, w, tp);
    assert QueueOk(s, tp) && Queue(w'.producer, tp) == Queue(s, tp)[1..];
    assert SequenceNumber(w'.producer, tp) == SequenceNumber(s, tp);
    TailMembers(Queue(s, tp));
    QuietKeepsOrphaned(c, w, w', tp, b);
    DrainLeavesFresh(c, s, tp, w.clock.now, w'.producer);
  }

  // ----- the deque is emptied ----------------------------------------------------------

  /** The head is drained, sent and rejected. */
  lemma HeadIsRejected(c: Config, w: World, tp: TopicPartition, b: nat) returns (w': World)
    requires Idle(c, w, tp, b) && Queue(w.producer, tp) != []
    ensures Leads(c, w, w') && Idle(c, w', tp, b) && Queue(w'.producer, tp) == Queue(w.producer, tp)[1..]
    ensures w'.clock == w.clock
  {
    var h := Queue(w.producer, tp)[0];
    RoundLeads(c, w, tp, b);
    RoundedIs(c, w, tp, b);
    var w1 := Rounded(c, w, tp);
    StepKeepsAll(c, w1, Send(h));
    var w2 := WorldStep(c, w1, Client(Send(h)));
    assert w2.producer.drained == {} && w2.producer.awaiting == {h};
    QuietKeepsOrphaned(c, w1, w2, tp, b);
    LessIsFresh(c, w1.producer, w2.producer, w.clock.now);
    w' := LastIsRejected(c, w2, tp, b, h);
  }

  /** The only request that is out is rejected. */
  lemma LastIsRejected(c: Config, w: World, tp: TopicPartition, b: nat, h: nat) returns (w': World)
    requires Orphaned(c, w, tp, b) && Remembered(w, tp, b) && w.clock.phase.Sending?
    requires w.producer.drained == {} && w.producer.awaiting == {h} && Fresh(c, w.producer, w.clock.now)
    requires h < |w.producer.batches| && h != b && w.producer.batches[h].tp == tp
    ensures Leads(c, w, w') && Idle(c, w', tp, b) && Queue(w'.producer, tp) == Queue(w.producer, tp)
    ensures w'.clock == w.clock
  {
    var s, e := w.producer, Respond(h, Some(REJECTION), w.clock.now);
    StepKeepsAll(c, w, e);
    w' := WorldStep(c, w, Client(e));
    RejectionIs(c, s, e);
    assert s.awaiting - {h} == {} && w'.clock == w.clock && Queue(w'.producer, tp) == Queue(s, tp);
    QuietKeepsOrphaned(c, w, w', tp, b);
    LessIsFresh(c, s, w'.producer, w.clock.now);
  }

  lemma LessIsFresh(c: Config, s: State, s': State, now: int)
    requires Fresh(c, s, now) && SameBirth(s, s') && s'.inFlight <= s.inFlight && s'.queues == s.queues
    ensures Fresh(c, s', now)
  {
    forall i: nat ensures Unexpired(c, s', i, now) { assert Unexpired(c, s, i, now); }
  }

  lemma {:induction false} EmptyLeads(c: Config, w: World, tp: TopicPartition, b: nat) returns (w': World)
    requires Idle(c, w, tp, b)
    ensures Leads(c, w, w') && Idle(c, w', tp, b) && Queue(w'.producer, tp) == []
    decreases |Queue(w.producer, tp)|
  {
    if Queue(w.producer, tp) == [] {
      w' := w;
    } else {
      var w1 := HeadIsRejected(c, w, tp, b);
      w' := EmptyLeads(c, w1, tp, b);
    }
  }

  // ----- the next batch is lost --------------------------------------------------------

  /** A batch with as many records as the orphaned one, not yet in the log. */
  ghost predicate Twin(w: World, tp: TopicPartition, b: nat, n: nat) {
    var bs := w.producer.batches;
    && b < |bs| && n < |bs| && bs[n].tp == tp && bs[n].final.None? && bs[b].stamp.Some?
    && |bs[n].records| == |bs[b].records| && n !in Log(w, tp)
  }

  lemma AckLoses(c: Config, w: World, tp: TopicPartition, b: nat, n: nat)
    requires Kept(c, w) && Twin(w, tp, b, n) && n in w.replied && n in w.producer.awaiting && w.clock.phase.Sending?
    ensures CanLose(c, w)
  {
    var e := Respond(n, None, w.clock.now);
    StepKeepsAll(c, w, e);
    SuccessIs(c, w.producer, e);
    var w' := WorldStep(c, w, Client(e));
    assert w'.producer.batches[n].final == Some(Succeeded);
    LoseNow(c, w');
  }

  /** The broker takes the twin for a resend. */
  lemma DeliverLoses(c: Config, w: World, tp: TopicPartition, b: nat, n: nat)
    requires Orphaned(c, w, tp, b) && Remembered(w, tp, b) && Twin(w, tp, b, n) && w.clock.phase.Sending?
    requires w.producer.batches[n].stamp == w.producer.batches[b].stamp && n in w.producer.sends
    requires n in w.producer.awaiting
    ensures CanLose(c, w)
  {
    var s := w.producer;
    assert BatchOk(s, b) && SequenceOk(s, tp);
    Different(s.batches[b].stamp.value.sequence, |s.batches[b].records|);
    var w' := Handle(w, n);
    assert w' == w.(replied := w.replied + {n});
    AckLoses(c, w', tp, b, n);
    LoseLater(c, w, Deliver(n));
  }

  lemma Different(q: nat, r: nat)
    requires q <= MAX_SEQUENCE && 1 <= r <= MAX_SEQUENCE
    ensures (q + r) % SEQUENCE_SPACE != q
  {
  }

  /** The next batch is alone in its deque, has as many records as the orphaned one, and is drained and sent. */
  lemma TwinLoses(c: Config, w: World, tp: TopicPartition, b: nat, n: nat)
    requires Idle(c, w, tp, b) && Queue(w.producer, tp) == [n] && Twin(w, tp, b, n)
    ensures CanLose(c, w)
  {
    RoundLeads(c, w, tp, b);
    RoundedIs(c, w, tp, b);
    var w1 := Rounded(c, w, tp);
    StepKeepsAll(c, w1, Send(n));
    var w2 := WorldStep(c, w1, Client(Send(n)));
    assert w2.producer.sends[|w1.producer.sends|] == n;
    QuietKeepsOrphaned(c, w1, w2, tp, b);
    DeliverLoses(c, w2, tp, b, n);
  }

  /** The next batch waits alone in the deque, open, and was appended just now. */
  ghost predicate Waiting(w: World, tp: TopicPartition, n: nat) {
    var s := w.producer;
    && Queue(s, tp) == [n] && n < |s.batches| && s.batches[n].tp == tp && !s.batches[n].closed
    && s.batches[n].final.None? && s.batches[n].stamp.None? && n !in Log(w, tp) && s.batches[n].created == w.clock.now
  }

  lemma {:induction false} GrowLoses(c: Config, w: World, tp: TopicPartition, b: nat, n: nat)
    requires c.deliveryTimeout > 0 && Idle(c, w, tp, b) && Waiting(w, tp, n) && n != b
    requires |w.producer.batches[n].records| <= |w.producer.batches[b].records|
    ensures CanLose(c, w)
    decreases |w.producer.batches[b].records| - |w.producer.batches[n].records|
  {
    var s := w.producer;
    if |s.batches[n].records| == |s.batches[b].records| {
      TwinLoses(c, w, tp, b, n);
    } else {
      var e := Append(tp, 0, 0, 0, true, w.clock.now);
      assert BatchOk(s, b) && JoinsLast(s, tp, true) && QueueOk(s, tp);
      StepKeepsAll(c, w, e);
      AppendIs(c, s, e);
      var w' := WorldStep(c, w, Client(e));
      assert Queue(w'.producer, tp) == [n];
      QuietKeepsOrphaned(c, w, w', tp, b);
      LessIsFresh(c, s, w'.producer, w.clock.now);
      GrowLoses(c, w', tp, b, n);
    }
  }

  lemma StartLoses(c: Config, w: World, tp: TopicPartition, b: nat)
    requires c.deliveryTimeout > 0 && Idle(c, w, tp, b) && Queue(w.producer, tp) == []
    ensures CanLose(c, w)
  {
    var s, n := w.producer, |w.producer.batches|;
    var e := Append(tp, 0, 0, 0, true, w.clock.now);
    assert BatchOk(s, b) && QueueOk(s, tp);
    StepKeepsAll(c, w, e);
    AppendIs(c, s, e);
    var w' := WorldStep(c, w, Client(e));
    assert Queue(w'.producer, tp) == [n] && n !in Log(w, tp);
    QuietKeepsOrphaned(c, w, w', tp, b);
    NewIsFresh(c, s, w'.producer, tp, w.clock.now);
    GrowLoses(c, w', tp, b, n);
  }

  /** A batch appended now has not expired. */
  lemma NewIsFresh(c: Config, s: State, s': State, tp: TopicPartition, now: int)
    requires c.deliveryTimeout > 0 && Structure(s) && Fresh(c, s, now) && Started(s, s', tp)
    requires s'.batches[|s.batches|].created == now
    ensures Fresh(c, s', now)
  {
    forall i: nat ensures Unexpired(c, s', i, now) {
      if i < |s.batches| { assert Unexpired(c, s, i, now) && (Queued(s', i) ==> Queued(s, i)); }
    }
  }

  /** From rest, with the orphaned batch known to the broker or on its way. */
  lemma RestLoses(c: Config, w: World, tp: TopicPartition, b: nat)
    requires c.deliveryTimeout > 0 && Resting(c, w, tp, b) && Placed(w, tp, b)
    requires b in w.producer.drained || b in w.producer.sends
    ensures CanLose(c, w)
  {
    var w1 := SendLeads(c, w, tp, b);
    var w2 := ArrivalLeads(c, w1, tp, b);
    var w3 := AnswerLeads(c, w2, tp, b);
    var w4 := CleanLeads(c, w3, tp, b);
    var w5 := EmptyLeads(c, w4, tp, b);
    StartLoses(c, w5, tp, b);
  }

  // ----- orphaning ---------------------------------------------------------------------

  /** Before it is orphaned, a batch is the one the current producer id is waiting for. */
  lemma BeforeOrphaned(c: Config, w: World, tp: TopicPartition, b: nat)
    requires Sound(c, w) && w.producer.producerId.Some? && !ResetComing(c, w) && !w.producer.fatal
    requires Under(w.producer.batches, tp, w.producer.producerId.value.pid, b) && w.producer.batches[b].final.None?
    requires b in LiveIn(c, w)
    ensures SequenceNumber(w.producer, tp) == w.producer.batches[b].stamp.value.sequence
    ensures Placed(w, tp, b) && Below(Log(w, tp), |w.producer.batches|)
  {
    var s, bs, log, pid := Seen(c, w), w.producer.batches, Log(w, tp), w.producer.producerId.value.pid;
    assert PartitionOk(c, w, tp);
    assert TailOk(bs, log, TailAt(w.tails, tp, pid), pid);
    var u: nat :| OpenAt(s, log, tp, pid, u);
    assert u == b;
    forall k | 0 <= k < |log| ensures log[k] < |bs| { assert EntryOk(bs, log, tp, k); }
    if b !in log {
      assert Missing(bs, log, LiveIn(c, w), tp, b);
      ExpectedIs(bs, log, TailAt(w.tails, tp, pid), tp, pid);
    }
  }

  /** Nothing that waits behind an outstanding batch was ever sent. */
  lemma BehindIsUnsent(c: Config, s: State, b: nat)
    requires c.guaranteeMessageOrder && Invariant(c, s) && Dated(c, s) && b < |s.batches| && Holds(s, b)
    ensures Unsent(s.batches, Queue(s, s.batches[b].tp))
  {
    var q := Queue(s, s.batches[b].tp);
    assert QueueOk(s, s.batches[b].tp) && HolderOk(s, b);
    forall k | 0 <= k < |q| ensures s.batches[q[k]].stamp.None? { assert OldOk(s, q[k]); }
  }

  /** What orphaning leaves behind. */
  lemma OrphaningIs(c: Config, w: World, e: Event)
    requires Kept(c, w) && Possible(c, w, Client(e)) && Orphans(c, w, e) && Step(c, w.producer, e).Returns?
    ensures var s, s', b := w.producer, Step(c, w.producer, e).value, e.id;
            && s'.producerId == s.producerId && s'.sequences == s.sequences && s'.queues == s.queues
            && s'.resetDue == s.resetDue && !s.fatal && (e.FailExpired? ==> b in s.expired)
            && s'.batches == s.batches[b := s.batches[b].(final := Some(Failed))]
            && s'.sends == s.sends && s'.drained == s.drained
            && (if e.Respond? then s.batches[b].tp !in s'.muted else s'.awaiting == s.awaiting)
  {
    if e.Respond? { FailIs(c, w.producer, e); } else { FailExpiredIs(c, w.producer, e); }
  }

  /** Before that it is unfinished, of the current producer id, and drained or with its request out. */
  lemma OrphanIsOut(c: Config, w: World, e: Event)
    requires Kept(c, w) && Possible(c, w, Client(e)) && Orphans(c, w, e) && Step(c, w.producer, e).Returns?
    ensures var s := w.producer;
            && s.producerId.Some? && !s.resetDue && !s.fatal && s.batches[e.id].stamp.Some? && Match(s, s.batches[e.id])
            && (e.id in s.drained || e.id in s.awaiting) && !ResetComing(c, w)
  {
    OrphaningIs(c, w, e);
    assert Tracked(w.producer, e.id);
    PressingStays(c, w.producer, w.clock, e);
  }

  lemma OrphaningOrphans(c: Config, w: World, e: Event)
    requires c.idempotent && c.guaranteeMessageOrder && Sound(c, w) && Possible(c, w, Client(e)) && Orphans(c, w, e)
    ensures var w', b := WorldStep(c, w, Client(e)), e.id;
            var tp := w.producer.batches[b].tp;
            && Orphaned(c, w', tp, b) && !ResetComing(c, w') && Placed(w', tp, b)
            && Releasable(w', tp, b) && (b in w'.producer.drained || b in w'.producer.sends)
  {
    var s, b := w.producer, e.id;
    var tp, w' := s.batches[b].tp, WorldStep(c, w, Client(e));
    StepKeepsAll(c, w, e);
    OrphanIsOut(c, w, e);
    OrphaningIs(c, w, e);
    assert Tracked(s, b);
    OutIsLive(c, w, b);
    BeforeOrphaned(c, w, tp, b);
    BehindIsUnsent(c, s, b);
    assert Log(w', tp) == Log(w, tp) && Queue(w'.producer, tp) == Queue(s, tp);
  }

  lemma OutIsLive(c: Config, w: World, b: nat)
    requires !ResetComing(c, w) && (b in w.producer.drained || b in w.producer.sends)
    ensures b in LiveIn(c, w)
  {
    assert !Barred(c, w.producer, w.clock);
  }

  /** The world at the end of some careful run. */
  ghost predicate Reached(c: Config, w: World) {
    exists es :: PossibleRun(c, Start(), es) && CarefulRun(c, Start(), es) && WorldRun(c, Start(), es) == w
  }

  /**
   * The exact limit of safe delivery. While no batch has been orphaned no acknowledged batch is
   * lost; and the step that orphans a batch, whatever careful run led up to it, has a
   * continuation at whose end an acknowledged batch is in no log. Without any time to deliver
   * nothing is acknowledged at all (NothingAcknowledged).
   */
  lemma OrphaningLoses(c: Config, w: World, e: Event)
    requires c.idempotent && c.guaranteeMessageOrder && Reached(c, w) && Possible(c, w, Client(e))
    ensures !Lost(w)
    ensures !Orphans(c, w, e) ==> Reached(c, WorldStep(c, w, Client(e))) && !Lost(WorldStep(c, w, Client(e)))
    ensures Orphans(c, w, e) && c.deliveryTimeout > 0 ==> CanLose(c, WorldStep(c, w, Client(e)))
  {
    NothingIsLost(c, w);
    if !Orphans(c, w, e) {
      ReachedGoesOn(c, w, Client(e));
      NothingIsLost(c, WorldStep(c, w, Client(e)));
    } else if c.deliveryTimeout > 0 {
      OrphaningOrphans(c, w, e);
      var w1, tp := WorldStep(c, w, Client(e)), w.producer.batches[e.id].tp;
      if e.FailExpired? {
        var w2 := ScanLeads(c, w1, tp, e.id);
        RestLoses(c, w2, tp, e.id);
      } else {
        RestLoses(c, w1, tp, e.id);
      }
    }
  }

  lemma NothingIsLost(c: Config, w: World)
    requires c.idempotent && c.guaranteeMessageOrder && Reached(c, w)
    ensures Sound(c, w) && !Lost(w)
  {
    var es :| PossibleRun(c, Start(), es) && CarefulRun(c, Start(), es) && WorldRun(c, Start(), es) == w;
    StartIsSound(c);
    RunKeepsSound(c, Start(), es);
    forall i: nat | i < |w.producer.batches| && w.producer.batches[i].final == Some(Succeeded)
      ensures i in Log(w, w.producer.batches[i].tp)
    {
      assert PartitionOk(c, w, w.producer.batches[i].tp);
    }
  }

  lemma ReachedGoesOn(c: Config, w: World, we: WorldEvent)
    requires Reached(c, w) && Possible(c, w, we) && Careful(c, w, we)
    ensures Reached(c, WorldStep(c, w, we))
  {
    var es :| PossibleRun(c, Start(), es) && CarefulRun(c, Start(), es) && WorldRun(c, Start(), es) == w;
    ExtendRun(c, Start(), es, we);
  }

  lemma {:induction false} ExtendRun(c: Config, w: World, es: seq<WorldEvent>, we: WorldEvent)
    requires PossibleRun(c, w, es) && CarefulRun(c, w, es)
    requires Possible(c, WorldRun(c, w, es), we) && Careful(c, WorldRun(c, w, es), we)
    ensures PossibleRun(c, w, es + [we]) && CarefulRun(c, w, es + [we])
    ensures WorldRun(c, w, es + [we]) == WorldStep(c, WorldRun(c, w, es), we)
    decreases es
  {
    if es == [] {
      var w' := WorldStep(c, w, we);
      assert ([] + [we])[1..] == [];
      assert PossibleRun(c, w', []) && CarefulRun(c, w', []) && WorldRun(c, w', []) == w';
    } else {
      ExtendRun(c, WorldStep(c, w, es[0]), es[1..], we);
      assert (es + [we])[1..] == es[1..] + [we];
    }
  }
}
