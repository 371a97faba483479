/**
 * Which steps orphan a batch, told from the state before and by example, and what else bears on
 * delivery: copies that come round, and a producer that leaves no time to deliver.
 */
module OrphaningSteps {
  import opened Common
  import opened ProducerModel
  import opened ProducerInvariants
  import opened ProducerSequences
  import opened ProducerRuns
  import opened ProducerHistory
  import opened ProducerRounds
  import opened ExactlyOnce
  import opened OrphanedBatches

  /** The steps that orphan a batch, told from the state before: their guards in the code. */
  ghost predicate Orphaning(c: Config, w: World, e: Event) {
    var s := w.producer;
    && (e.Respond? || e.FailExpired?) && e.id < |s.batches|
    && s.batches[e.id].final.None? && s.batches[e.id].stamp.Some? && Match(s, s.batches[e.id])
    && !s.fatal && !Pressing(c, s, Ticked(w.clock, e))
    && (e.Respond? ==>
          && e.err.Some? && !e.err.value.outOfOrderSequence && !e.err.value.fatal
          && !CanRetry(c, s.batches[e.id], e.err.value, e.now))
  }

  lemma OrphansWhen(c: Config, w: World, e: Event)
    requires Kept(c, w) && Possible(c, w, Client(e))
    ensures Orphans(c, w, e) <==> Orphaning(c, w, e)
  {
    StepKeepsAll(c, w, e);
    if e.FailExpired? {
      FailExpiredIs(c, w.producer, e);
      SamePressing(c, w, e);
    } else if e.Respond? && e.err.None? {
      SuccessIs(c, w.producer, e);
    } else if e.Respond? && CanRetry(c, w.producer.batches[e.id], e.err.value, e.now)
      && Match(w.producer, w.producer.batches[e.id]) {
      RetryIs(c, w.producer, e);
    } else if e.Respond? {
      FailureOrphans(c, w, e);
    }
  }

  lemma FailureOrphans(c: Config, w: World, e: Event)
    requires Kept(c, w) && e.Respond? && e.err.Some? && Possible(c, w, Client(e)) && Step(c, w.producer, e).Returns?
    requires !(CanRetry(c, w.producer.batches[e.id], e.err.value, e.now) && Match(w.producer, w.producer.batches[e.id]))
    ensures Orphans(c, w, e) <==> Orphaning(c, w, e)
  {
    FailIs(c, w.producer, e);
    SamePressing(c, w, e);
  }

  /** Failing a batch makes no difference to whether a reset is coming. */
  lemma SamePressing(c: Config, w: World, e: Event)
    requires Kept(c, w) && Possible(c, w, Client(e)) && Step(c, w.producer, e).Returns?
    requires e.FailExpired? || (e.Respond? && e.err.Some?
               && !(CanRetry(c, w.producer.batches[e.id], e.err.value, e.now)
                    && Match(w.producer, w.producer.batches[e.id])))
    ensures Pressing(c, Step(c, w.producer, e).value, Ticked(w.clock, e)) <==>
            Pressing(c, w.producer, Ticked(w.clock, e))
  {
    var s, s', k := w.producer, Step(c, w.producer, e).value, Ticked(w.clock, e);
    assert BatchOk(s, e.id);
    if e.FailExpired? {
      FailExpiredIs(c, s, e);
      DoneRemoves(s.(expired := s.expired - {e.id}), e.id, Failed);
    } else {
      FailIs(c, s, e);
      RespondSpares(c, s, e);
    }
    forall r: nat ensures Found(c, s', k, r) <==> Found(c, s, k, r)
      ensures Overdue(c, s', k, r) <==> Overdue(c, s, k, r)
    {
      SameResend(c, s, s', k, e.id, r);
    }
  }

  lemma SameResend(c: Config, s: State, s': State, k: Clock, i: nat, r: nat)
    requires i < |s.batches| && |s'.batches| == |s.batches| && s'.queues == s.queues && s'.drained == s.drained
    requires s'.batches == s.batches[i := s.batches[i].(final := s'.batches[i].final)] && s'.batches[i].final.Some?
    requires s'.inFlight <= s.inFlight && s.inFlight - {i} <= s'.inFlight
    requires s.awaiting - {i} <= s'.awaiting <= s.awaiting && !Queued(s, i)
    requires i in s.inFlight ==> k.phase.Sending? && i in s.awaiting
    ensures Found(c, s', k, r) <==> Found(c, s, k, r)
    ensures Overdue(c, s', k, r) <==> Overdue(c, s, k, r)
  {
  }

  // ----- no time to deliver ------------------------------------------------------------

  /** With a timeout of 0 nothing is in flight once the scans are over, and nothing is ever acknowledged. */
  ghost predicate NoTime(s: State, k: Clock) {
    && (forall i :: 0 <= i < |s.batches| ==> s.batches[i].final != Some(Succeeded))
    && (k.phase.Sending? ==> s.inFlight == {})
    && (k.phase.Scanning? ==> forall i :: i in s.inFlight && i < |s.batches| ==> s.batches[i].created <= k.phase.scan)
  }

  lemma StepKeepsNoTime(c: Config, w: World, e: Event)
    requires c.deliveryTimeout == 0 && Kept(c, w) && NoTime(w.producer, w.clock) && Possible(c, w, Client(e))
    ensures NoTime(WorldStep(c, w, Client(e)).producer, WorldStep(c, w, Client(e)).clock)
  {
    StepKeepsAll(c, w, e);
    var s := w.producer;
    match e {
      case Append(_, _, _, _, _, _) => AppendKeepsNoTime(c, s, w.clock, e);
      case FailExpired(_) => FailExpiredIs(c, s, e);
      case Respond(_, _, _) => AnswerKeepsNoTime(c, s, w.clock, e);
      case ResetPid => NothingInFlight(c, s, w.clock);
      case _ =>
    }
  }

  lemma AppendKeepsNoTime(c: Config, s: State, k: Clock, e: Event)
    requires Structure(s) && NoTime(s, k) && e.Append? && Enabled(c, s, e)
    ensures NoTime(Step(c, s, e).value, Ticked(k, e))
  {
    assert QueueOk(s, e.tp) && |s.batches| !in s.inFlight;
    AppendIs(c, s, e);
  }

  lemma AnswerKeepsNoTime(c: Config, s: State, k: Clock, e: Event)
    requires Structure(s) && NoTime(s, k) && e.Respond? && Enabled(c, s, e) && OnTime(k, e) && Step(c, s, e).Returns?
    ensures NoTime(Step(c, s, e).value, Ticked(k, e))
  {
    assert BatchOk(s, e.id);
    if e.err.Some? { ErrorIs(c, s, e); } else { SuccessIs(c, s, e); }
  }

  lemma NothingInFlight(c: Config, s: State, k: Clock)
    requires c.deliveryTimeout == 0 && InRange(s) && ScanDone(c, s, k) && NoTime(s, k)
    ensures s.inFlight == {}
  {
  }

  lemma {:induction false} RunKeepsNoTime(c: Config, w: World, es: seq<WorldEvent>)
    requires c.deliveryTimeout == 0 && Kept(c, w) && NoTime(w.producer, w.clock) && PossibleRun(c, w, es)
    ensures NoTime(WorldRun(c, w, es).producer, WorldRun(c, w, es).clock)
    decreases es
  {
    if es != [] {
      var s, k := w.producer, w.clock;
      match es[0] {
        case Client(e) => StepKeepsAll(c, w, e); StepKeepsNoTime(c, w, e);
        case Deliver(_) =>
        case Round(now) => BeginRound(c, s, k, now);
        case Scan => BeginScan(c, s, k);
        case Finish => EndScan(c, s, k); NothingInFlight(c, s, k);
      }
      RunKeepsNoTime(c, WorldStep(c, w, es[0]), es[1..]);
    }
  }

  /** With a delivery timeout of 0 every batch expires in the round that drains it. */
  lemma NothingAcknowledged(c: Config, es: seq<WorldEvent>)
    requires c.idempotent && c.guaranteeMessageOrder && c.deliveryTimeout == 0 && PossibleRun(c, Start(), es)
    ensures forall i :: 0 <= i < |WorldRun(c, Start(), es).producer.batches| ==>
              WorldRun(c, Start(), es).producer.batches[i].final != Some(Succeeded)
    ensures !Lost(WorldRun(c, Start(), es))
  {
    StartIsSound(c);
    RunKeepsNoTime(c, Start(), es);
  }

  /** A delayed copy is appended a second time exactly when the sequence numbers have come round to it. */
  lemma LateCopyRepeats(c: Config, w: World, i: nat)
    requires c.idempotent && c.guaranteeMessageOrder && Reached(c, w) && Possible(c, w, Deliver(i))
    ensures Careful(c, w, Deliver(i)) <==> Distinct(Log(WorldStep(c, w, Deliver(i)), w.producer.batches[i].tp))
    ensures Careful(c, w, Deliver(i)) ==> Reached(c, WorldStep(c, w, Deliver(i)))
  {
    var bs, tp := w.producer.batches, w.producer.batches[i].tp;
    var log, t := Log(w, tp), TailAt(w.tails, tp, bs[i].stamp.value.pid);
    NothingIsLost(c, w);
    assert PartitionOk(c, w, tp) && TailOk(bs, log, t, bs[i].stamp.value.pid);
    if Careful(c, w, Deliver(i)) {
      ReachedGoesOn(c, w, Deliver(i));
      NothingIsLost(c, WorldStep(c, w, Deliver(i)));
      assert PartitionOk(c, WorldStep(c, w, Deliver(i)), tp);
    } else {
      var k :| 0 <= k < |log| && log[k] == i && ComesRound(bs, log, bs[i].stamp.value.pid, k);
      OldCopyIsExpected(bs, log, t, tp, k);
      assert (log + [i])[k] == (log + [i])[|log|];
    }
  }

  // ----- the three ways a batch is orphaned --------------------------------------------

  const TP0 := TopicPartition("t", 0)
  const PID0 := ProducerIdAndEpoch(7, 0)

  lemma Reach(c: Config, w: World, we: WorldEvent, w': World)
    requires Reached(c, w) && Possible(c, w, we) && Careful(c, w, we) && w' == WorldStep(c, w, we)
    ensures Reached(c, w')
  {
    ReachedGoesOn(c, w, we);
  }

  function FirstBatch(sent: bool): Batch {
    Batch(TP0, 0, [1], 10, 10, sent, false, 0, 0, if sent then Some(Stamp(7, 0, 0)) else None, None)
  }

  function Identified(): World {
    Start().(producer := Initial().(producerId := Some(PID0), usedPids := {7}))
  }

  function Gathered(): World {
    Start().(producer := Identified().producer.(batches := [FirstBatch(false)], queues := map[TP0 := [0]],
                                                incomplete := {0}, user := map[TP0 := [1]]))
  }

  /** The first batch is drained, its request sent and appended by the broker; the reply is lost. */
  function Appended(): World {
    World(State([FirstBatch(true)], map[TP0 := []], {TP0}, {0}, {0}, {}, {0}, {}, Some(PID0), map[TP0 := 0],
                false, false, [], [0], [], {7}, map[TP0 := [1]]),
          map[TP0 := [0]], map[(TP0, 7) := Tail(0, 1)], {0}, Clock(0, Sending))
  }

  lemma GatheredIsReached(c: Config)
    requires c.idempotent && c.guaranteeMessageOrder
    ensures Reached(c, Gathered())
  {
    var w0, w1 := Start(), Identified();
    assert PossibleRun(c, w0, []) && CarefulRun(c, w0, []) && WorldRun(c, w0, []) == w0;
    assert w0.producer.usedPids + {7} == {7};
    Reach(c, w0, Client(NewPid(7, 0)), w1);
    assert w1.producer.incomplete + {0} == {0} && w1.producer.batches + [FirstBatch(false)] == [FirstBatch(false)];
    assert Queue(w1.producer, TP0) + [0] == [0] && UserRecords(w1.producer, TP0) + [1] == [1];
    Reach(c, w1, Client(Append(TP0, 1, 10, 10, true, 0)), Gathered());
  }

  /** The first batch is drained, and nothing found expired. */
  function Drained(): World {
    Appended().(producer := Appended().producer.(drained := {0}, awaiting := {}, sends := []),
                logs := map[], tails := map[], replied := {})
  }

  lemma DrainedIsReached(c: Config)
    requires c.idempotent && c.guaranteeMessageOrder && c.deliveryTimeout > 0
    ensures Reached(c, Drained())
  {
    GatheredIsReached(c);
    var w := Gathered();
    var w1 := w.(clock := Clock(0, Draining(0)));
    Reach(c, w, Round(0), w1);
    assert w.producer.drained + {0} == {0} && w.producer.inFlight + {0} == {0} && w.producer.muted + {TP0} == {TP0};
    assert w.producer.batches[0 := FirstBatch(true)] == [FirstBatch(true)] && Queue(w.producer, TP0)[1..] == [];
    assert w.producer.queues[TP0 := []] == map[TP0 := []];
    var w2 := Drained().(clock := Clock(0, Draining(0)));
    Reach(c, w1, Client(Drain(TP0, 0)), w2);
    var w3 := Drained().(clock := Clock(0, Scanning(0, 0)));
    Reach(c, w2, Scan, w3);
    Reach(c, w3, Finish, Drained());
  }

  lemma AppendedIsReached(c: Config)
    requires c.idempotent && c.guaranteeMessageOrder && c.deliveryTimeout > 0
    ensures Reached(c, Appended())
  {
    DrainedIsReached(c);
    var w := Drained();
    var w' := w.(producer := Appended().producer);
    assert w.producer.drained - {0} == {} && w.producer.awaiting + {0} == {0} && w.producer.sends + [0] == [0];
    Reach(c, w, Client(Send(0)), w');
    assert w'.replied + {0} == {0} && Log(w', TP0) + [0] == [0];
    Reach(c, w', Deliver(0), Appended());
  }

  /** A batch the broker has appended is failed by this step and can bring about a loss. */
  ghost predicate Shows(c: Config, w: World, e: Event) {
    && Reached(c, w) && 0 in Log(w, TP0) && Possible(c, w, Client(e)) && Orphans(c, w, e)
    && CanLose(c, WorldStep(c, w, Client(e)))
  }

  /** The appended batch, on its first attempt, is given up at the delivery timeout. */
  lemma ExpiryOrphans(c: Config)
    requires c.idempotent && c.guaranteeMessageOrder && c.deliveryTimeout > 0
    ensures exists w :: Shows(c, w, FailExpired(0))
  {
    AppendedIsReached(c);
    var w, late := Appended(), c.deliveryTimeout;
    var w1 := w.(clock := Clock(late, Draining(late)));
    var w2 := w.(clock := Clock(late, Scanning(late, late)));
    ScanBegins(c, w, w1, w2, late);
    var w3 := w2.(producer := w.producer.(inFlight := {}, expired := {0}));
    assert w.producer.inFlight - {0} == {} && w.producer.expired + {0} == {0};
    Reach(c, w2, Client(ExpireInFlight(0, late)), w3);
    NoResends(c, w3, FailExpired(0));
    OrphaningLoses(c, w3, FailExpired(0));
    assert Shows(c, w3, FailExpired(0));
  }

  lemma ScanBegins(c: Config, w: World, w1: World, w2: World, now: int)
    requires Reached(c, w) && RoundStarts(w.producer, w.clock, now)
    requires w1 == w.(clock := Clock(now, Draining(now))) && w2 == w.(clock := Clock(now, Scanning(now, now)))
    ensures Reached(c, w2)
  {
    Reach(c, w, Round(now), w1);
    Reach(c, w1, Scan, w2);
  }

  /** The only batch fails, so no resend is left for whose sake the producer id would be dropped. */
  lemma NoResends(c: Config, w: World, e: Event)
    requires Possible(c, w, Client(e)) && (e.Respond? || e.FailExpired?) && e.id == 0 && |w.producer.batches| == 1
    requires var s' := WorldStep(c, w, Client(e)).producer;
             && |s'.batches| == 1 && s'.batches[0].final == Some(Failed) && s'.batches[0].stamp.Some? && !s'.resetDue
             && Match(s', s'.batches[0]) && !s'.fatal && w.producer.batches[0].final.None?
    ensures Orphans(c, w, e)
  {
    var w' := WorldStep(c, w, Client(e));
    forall r: nat ensures !Found(c, w'.producer, w'.clock, r) && !Overdue(c, w'.producer, w'.clock, r) {
      assert !Resend(w'.producer, r);
    }
  }

  /** An error that is not retriable arrives for the appended batch. */
  lemma RejectionOrphans(c: Config)
    requires c.idempotent && c.guaranteeMessageOrder && c.deliveryTimeout > 0
    ensures Shows(c, Appended(), Respond(0, Some(REJECTION), 0))
  {
    AppendedIsReached(c);
    var e := Respond(0, Some(REJECTION), 0);
    NoResends(c, Appended(), e);
    OrphaningLoses(c, Appended(), e);
  }

  /** A retriable error, such as a lost reply, has put the appended batch back; it was sent again. */
  function Resent(backoff: nat): World {
    var s := Appended().producer;
    Appended().(producer := s.(batches := [FirstBatch(true).(inRetry := true, attempts := 1)], sends := [0, 0]),
                clock := Clock(backoff, Sending))
  }

  lemma RequeuedIsReached(c: Config, w1: World)
    requires c.idempotent && c.guaranteeMessageOrder && c.deliveryTimeout > 0 && c.retries == Some(1)
    requires w1 == Appended().(producer := Appended().producer.(
               batches := [FirstBatch(true).(inRetry := true, attempts := 1)], queues := map[TP0 := [0]], muted := {},
               inFlight := {}, awaiting := {}))
    ensures Reached(c, w1)
  {
    AppendedIsReached(c);
    var w, e := Appended(), Respond(0, Some(ProduceError(true, false, false)), 0);
    assert w.producer.awaiting - {0} == {} && w.producer.inFlight - {0} == {} && w.producer.muted - {TP0} == {};
    assert [0] + Queue(w.producer, TP0) == [0] && w.producer.queues[TP0 := [0]] == map[TP0 := [0]];
    Reach(c, w, Client(e), w1);
  }

  /** It is drained again, and nothing found expired. */
  function Redrained(backoff: nat): World {
    Resent(backoff).(producer := Resent(backoff).producer.(drained := {0}, awaiting := {}, sends := [0]))
  }

  lemma RedrainedIsReached(c: Config)
    requires c.idempotent && c.guaranteeMessageOrder && c.retries == Some(1) && c.retryBackoff < c.deliveryTimeout
    ensures Reached(c, Redrained(c.retryBackoff))
  {
    var now := c.retryBackoff;
    var s := Redrained(now).producer;
    var w1 := Appended().(producer := s.(queues := map[TP0 := [0]], muted := {}, inFlight := {}, drained := {}));
    RequeuedIsReached(c, w1);
    var w2 := w1.(clock := Clock(now, Draining(now)));
    Reach(c, w1, Round(now), w2);
    assert w1.producer.drained + {0} == {0} && w1.producer.inFlight + {0} == {0} && w1.producer.muted + {TP0} == {TP0};
    assert [0][1..] == [];
    assert w1.producer.queues[TP0 := []] == map[TP0 := []];
    var w3 := Redrained(now).(clock := Clock(now, Draining(now)));
    assert w1.producer.batches[0 := w1.producer.batches[0].(closed := true)] == w1.producer.batches;
    Reach(c, w2, Client(Drain(TP0, now)), w3);
    var w4 := w3.(clock := Clock(now, Scanning(now, now)));
    Reach(c, w3, Scan, w4);
    Reach(c, w4, Finish, Redrained(now));
  }

  lemma ResentIsReached(c: Config)
    requires c.idempotent && c.guaranteeMessageOrder && c.retries == Some(1) && c.retryBackoff < c.deliveryTimeout
    ensures Reached(c, Resent(c.retryBackoff))
  {
    RedrainedIsReached(c);
    var w := Redrained(c.retryBackoff);
    assert w.producer.drained - {0} == {} && w.producer.awaiting + {0} == {0} && w.producer.sends + [0] == [0, 0];
    Reach(c, w, Client(Send(0)), Resent(c.retryBackoff));
  }

  /** And a retriable error arrives again, with the one retry used up. */
  lemma LastRetryOrphans(c: Config)
    requires c.idempotent && c.guaranteeMessageOrder && c.retries == Some(1) && c.retryBackoff < c.deliveryTimeout
    ensures Shows(c, Resent(c.retryBackoff), Respond(0, Some(ProduceError(true, false, false)), c.retryBackoff))
  {
    ResentIsReached(c);
    var w, e := Resent(c.retryBackoff), Respond(0, Some(ProduceError(true, false, false)), c.retryBackoff);
    NoResends(c, w, e);
    OrphaningLoses(c, w, e);
  }
}
