/**
 * The order of the sender thread's steps and its clock. A round reads the clock, drains, scans
 * the deques at the time it read and the in-flight heaps at the time of the scan, fails what it
 * found, and then either drops the producer id or sends; responses are handled between rounds.
 */
module ProducerRounds {
  import opened Common
  import opened ProducerModel
  import opened ProducerInvariants
  import opened ProducerSequences
  import opened ProducerRuns
  import opened ProducerHistory

  datatype Phase =
    | Draining(round: int)              // the time the round read
    | Scanning(round: int, scan: int)   // and the time its scans began
    | Sending                           // and handling responses, until the next round

  datatype Clock = Clock(now: int, phase: Phase)

  /** The step comes in its turn, and not behind the clock. */
  predicate OnTime(k: Clock, e: Event) {
    match e
    case Append(_, _, _, _, _, now) => k.now <= now
    case Drain(_, now) => k.phase == Draining(now)
    case Send(_) => k.phase.Sending?
    case ExpireQueued(_, now) => k.phase.Scanning? && now == k.phase.round
    case ExpireInFlight(_, now) => k.phase.Scanning? && k.now <= now
    case FailExpired(_) => k.phase.Scanning?
    case Compare(_, _) => true
    case Respond(_, _, now) => k.phase.Sending? && k.now <= now
    case ResetPid => k.phase.Scanning?
    case NewPid(_, _) => k.phase.Sending?
  }

  function Ticked(k: Clock, e: Event): Clock {
    match e
    case Append(_, _, _, _, _, now) => k.(now := now)
    case ExpireInFlight(_, now) => k.(now := now)
    case Respond(_, _, now) => k.(now := now)
    case ResetPid => k.(phase := Sending)
    case _ => k
  }

  predicate RoundStarts(s: State, k: Clock, now: int) {
    k.phase.Sending? && s.drained == {} && k.now <= now
  }

  /** The scans are over: they left no expired batch in a deque or a heap, and what they found is failed. */
  ghost predicate ScanDone(c: Config, s: State, k: Clock) {
    && k.phase.Scanning? && s.expired == {}
    && (forall tp: TopicPartition :: HeadLives(c, s, tp, k.phase.round))
    && (forall i :: i in s.inFlight && i < |s.batches| ==> !s.batches[i].Expired(c.deliveryTimeout, k.phase.scan))
  }

  /** And no reset is due. */
  ghost predicate ScanEnds(c: Config, s: State, k: Clock) {
    ScanDone(c, s, k) && !s.resetDue
  }

  predicate HeadLives(c: Config, s: State, tp: TopicPartition, now: int) {
    Queue(s, tp) != [] && Queue(s, tp)[0] < |s.batches| ==> !s.batches[Queue(s, tp)[0]].Expired(c.deliveryTimeout, now)
  }

  ghost predicate RoundOk(s: State, k: Clock) {
    && (forall i :: 0 <= i < |s.batches| ==> s.batches[i].created <= k.now)
    && match k.phase
       case Draining(round) => round <= k.now && s.expired == {} && !s.resetDue
       case Scanning(round, scan) => round <= scan <= k.now
       case Sending => s.expired == {} && !s.resetDue
  }

  // ----- a reset that is coming --------------------------------------------------------

  predicate Resend(s: State, r: nat) {
    r < |s.batches| && s.batches[r].inRetry && s.batches[r].final.None?
  }

  predicate ExpiredAt(c: Config, s: State, r: nat, now: int) {
    r < |s.batches| && s.batches[r].Expired(c.deliveryTimeout, now)
  }

  /** The scans of the round under way find this expired resend. */
  predicate Found(c: Config, s: State, k: Clock, r: nat) {
    Resend(s, r) &&
    match k.phase
    case Draining(round) => (Queued(s, r) && ExpiredAt(c, s, r, round))
      || (r in s.inFlight && ExpiredAt(c, s, r, k.now))
    case Scanning(round, scan) => (Queued(s, r) && ExpiredAt(c, s, r, round))
      || (r in s.inFlight && ExpiredAt(c, s, r, scan))
    case Sending => false
  }

  /** The scans of the next round find this expired resend: nothing can take it away before. */
  predicate Overdue(c: Config, s: State, k: Clock, r: nat) {
    && Resend(s, r) && !k.phase.Draining? && ExpiredAt(c, s, r, k.now)
    && (Queued(s, r) || (r in s.inFlight && r !in s.awaiting && r !in s.drained))
  }

  /** The round under way ends with the producer id dropped, and sends nothing. */
  ghost predicate Barred(c: Config, s: State, k: Clock) {
    !k.phase.Sending? && (s.resetDue || exists r: nat :: Found(c, s, k, r))
  }

  /** The producer id is dropped before anything drained from now on is sent. */
  ghost predicate Pressing(c: Config, s: State, k: Clock) {
    s.resetDue || exists r: nat :: Found(c, s, k, r) || Overdue(c, s, k, r)
  }

  /** The batches whose request is out, or will be if the round goes on to send. */
  ghost function Arriving(c: Config, s: State, k: Clock): set<nat> {
    (set i | i in s.sends) + if Barred(c, s, k) then {} else s.drained
  }

  // ----- it stays coming ---------------------------------------------------------------

  /** An expired resend keeps its place, or a reset is due. */
  ghost predicate ResendKept(c: Config, s: State, k: Clock, s': State, k': Clock, r: nat) {
    && (Found(c, s, k, r) ==> s'.resetDue || Found(c, s', k', r))
    && (Overdue(c, s, k, r) ==> s'.resetDue || Overdue(c, s', k', r))
  }

  lemma ResendStays(c: Config, s: State, k: Clock, e: Event, r: nat)
    requires c.idempotent && c.guaranteeMessageOrder && Invariant(c, s) && RoundOk(s, k)
    requires Enabled(c, s, e) && OnTime(k, e) && Step(c, s, e).Returns? && !e.ResetPid? && Resend(s, r)
    ensures ResendKept(c, s, k, Step(c, s, e).value, Ticked(k, e), r)
  {
    assert BatchOk(s, r);
    match e {
      case Append(tp, _, _, _, _, _) => AppendKeepsResend(c, s, k, e, r);
      case Drain(tp, _) => DrainKeepsResend(c, s, k, e, r);
      case ExpireQueued(tp, _) => ScanKeepsResend(c, s, k, e, r);
      case ExpireInFlight(_, _) => HeapKeepsResend(c, s, k, e, r);
      case FailExpired(_) => FailKeepsResend(c, s, k, e, r);
      case Respond(_, _, _) => RespondKeepsResend(c, s, k, e, r);
      case Send(_) =>
      case NewPid(_, _) =>
    }
  }

  lemma AppendKeepsResend(c: Config, s: State, k: Clock, e: Event, r: nat)
    requires Structure(s) && RoundOk(s, k) && e.Append? && Enabled(c, s, e) && OnTime(k, e) && Resend(s, r)
    ensures ResendKept(c, s, k, Step(c, s, e).value, Ticked(k, e), r)
  {
    assert QueueOk(s, e.tp);
    AppendIs(c, s, e);
    var s' := Step(c, s, e).value;
    assert Queued(s, r) ==> Queued(s', r);
  }

  lemma DrainKeepsResend(c: Config, s: State, k: Clock, e: Event, r: nat)
    requires Structure(s) && RoundOk(s, k) && e.Drain? && Enabled(c, s, e) && OnTime(k, e) && Resend(s, r)
    requires Step(c, s, e).Returns?
    ensures ResendKept(c, s, k, Step(c, s, e).value, Ticked(k, e), r)
  {
    assert QueueOk(s, e.tp);
    TailMembers(Queue(s, e.tp));
  }

  lemma ScanKeepsResend(c: Config, s: State, k: Clock, e: Event, r: nat)
    requires c.idempotent && Structure(s) && e.ExpireQueued? && Enabled(c, s, e) && OnTime(k, e) && Resend(s, r)
    ensures ResendKept(c, s, k, Step(c, s, e).value, Ticked(k, e), r)
  {
    assert QueueOk(s, e.tp);
    TailMembers(Queue(s, e.tp));
  }

  lemma HeapKeepsResend(c: Config, s: State, k: Clock, e: Event, r: nat)
    requires c.idempotent && RoundOk(s, k) && e.ExpireInFlight? && Enabled(c, s, e) && OnTime(k, e) && Resend(s, r)
    requires Step(c, s, e).Returns?
    ensures ResendKept(c, s, k, Step(c, s, e).value, Ticked(k, e), r)
  {
  }

  lemma FailKeepsResend(c: Config, s: State, k: Clock, e: Event, r: nat)
    requires e.FailExpired? && Enabled(c, s, e) && Step(c, s, e).Returns? && Resend(s, r) && BatchOk(s, r)
    requires InRange(s) && BatchOk(s, e.id)
    ensures ResendKept(c, s, k, Step(c, s, e).value, Ticked(k, e), r)
  {
    DoneRemoves(s.(expired := s.expired - {e.id}), e.id, Failed);
    FailExpiredIs(c, s, e);
  }

  /** Completing a batch takes out no other. */
  lemma DoneRemoves(s: State, i: nat, f: FinalState)
    requires i < |s.batches| && Done(s, i, f).Returns?
    ensures s.inFlight - {i} <= Done(s, i, f).value.inFlight
  {
  }

  lemma RespondKeepsResend(c: Config, s: State, k: Clock, e: Event, r: nat)
    requires e.Respond? && Enabled(c, s, e) && Step(c, s, e).Returns? && OnTime(k, e) && Resend(s, r) && BatchOk(s, r)
    requires RoundOk(s, k)
    ensures ResendKept(c, s, k, Step(c, s, e).value, Ticked(k, e), r)
  {
    RespondIs(c, s, e);
    if Overdue(c, s, k, r) {
      var s' := Step(c, s, e).value;
      assert r != e.id && s'.batches[r] == s.batches[r];
      RespondSpares(c, s, e);
      assert Queued(s, r) ==> Queued(s', r);
    }
  }

  /** A response takes no other batch out of the heaps. */
  lemma RespondSpares(c: Config, s: State, e: Event)
    requires e.Respond? && Enabled(c, s, e) && Step(c, s, e).Returns?
    ensures s.inFlight - {e.id} <= Step(c, s, e).value.inFlight
  {
    var i, s0 := e.id, s.(awaiting := s.awaiting - {e.id});
    if e.err.None? {
      DoneRemoves(s0.(acks := s.acks + [i]), i, Succeeded);
    } else if !(CanRetry(c, s.batches[i], e.err.value, e.now) && (c.idempotent ==> Match(s, s.batches[i]))) {
      NoteIs(c, s0, i, e.err.value);
      DoneRemoves(NoteFailure(c, s0, i, e.err.value), i, Failed);
    }
  }

  lemma PressingStays(c: Config, s: State, k: Clock, e: Event)
    requires c.idempotent && c.guaranteeMessageOrder && Invariant(c, s) && RoundOk(s, k)
    requires Enabled(c, s, e) && OnTime(k, e) && Step(c, s, e).Returns? && !e.ResetPid?
    ensures Pressing(c, s, k) ==> Pressing(c, Step(c, s, e).value, Ticked(k, e))
    ensures Barred(c, s, k) ==> Barred(c, Step(c, s, e).value, Ticked(k, e))
  {
    var s' := Step(c, s, e).value;
    if s.resetDue {
      DueStays(c, s, e);
    } else {
      forall r: nat | Resend(s, r) ensures ResendKept(c, s, k, s', Ticked(k, e), r) { ResendStays(c, s, k, e, r); }
    }
  }

  lemma DueStays(c: Config, s: State, e: Event)
    requires Enabled(c, s, e) && Step(c, s, e).Returns? && !e.ResetPid? && s.resetDue
    ensures Step(c, s, e).value.resetDue
  {
    if e.FailExpired? { FailExpiredIs(c, s, e); }
  }

  // ----- every step and the turns of a round -------------------------------------------

  lemma StepKeepsRound(c: Config, s: State, k: Clock, e: Event)
    requires c.guaranteeMessageOrder && Invariant(c, s) && RoundOk(s, k) && Enabled(c, s, e) && OnTime(k, e)
    requires Step(c, s, e).Returns?
    ensures RoundOk(Step(c, s, e).value, Ticked(k, e))
  {
    match e {
      case Append(_, _, _, _, _, _) => assert QueueOk(s, e.tp); AppendIs(c, s, e);
      case FailExpired(_) => FailExpiredIs(c, s, e);
      case Respond(_, _, _) => RespondIs(c, s, e);
      case _ =>
    }
  }

  /** Only draining adds to the batches that will arrive, and only its own. */
  lemma ArrivingShrinks(c: Config, s: State, k: Clock, e: Event)
    requires c.idempotent && c.guaranteeMessageOrder && Invariant(c, s) && RoundOk(s, k)
    requires Enabled(c, s, e) && OnTime(k, e) && Step(c, s, e).Returns?
    ensures var s', k' := Step(c, s, e).value, Ticked(k, e);
            Arriving(c, s', k') <= Arriving(c, s, k) + if e.Drain? then {Queue(s, e.tp)[0]} else {}
  {
    var s' := Step(c, s, e).value;
    if !e.ResetPid? { PressingStays(c, s, k, e); }
    match e {
      case FailExpired(_) => FailExpiredIs(c, s, e);
      case Respond(_, _, _) => RespondIs(c, s, e);
      case Send(i) => assert forall j :: j in s'.sends ==> j in s.sends || j == i;
      case _ =>
    }
  }

  function RoundBegun(now: int): Clock { Clock(now, Draining(now)) }

  function ScanBegun(k: Clock): Clock
    requires k.phase.Draining?
  {
    k.(phase := Scanning(k.phase.round, k.now))
  }

  function ScanEnded(k: Clock): Clock { k.(phase := Sending) }

  lemma BeginRound(c: Config, s: State, k: Clock, now: int)
    requires RoundOk(s, k) && RoundStarts(s, k, now)
    ensures RoundOk(s, RoundBegun(now)) && Arriving(c, s, RoundBegun(now)) == Arriving(c, s, k)
    ensures Pressing(c, s, k) ==> Pressing(c, s, RoundBegun(now))
  {
    if Pressing(c, s, k) {
      var r: nat :| Found(c, s, k, r) || Overdue(c, s, k, r);
      assert Found(c, s, RoundBegun(now), r);
    }
  }

  lemma BeginScan(c: Config, s: State, k: Clock)
    requires RoundOk(s, k) && k.phase.Draining?
    ensures RoundOk(s, ScanBegun(k)) && Arriving(c, s, ScanBegun(k)) == Arriving(c, s, k)
    ensures Pressing(c, s, k) ==> Pressing(c, s, ScanBegun(k))
  {
    forall r: nat ensures Found(c, s, ScanBegun(k), r) <==> Found(c, s, k, r) {}
    assert Barred(c, s, ScanBegun(k)) <==> Barred(c, s, k);
  }

  /** The scans find every expired resend they can. */
  lemma EndScan(c: Config, s: State, k: Clock)
    requires c.guaranteeMessageOrder && Invariant(c, s) && RoundOk(s, k) && ScanEnds(c, s, k)
    ensures RoundOk(s, ScanEnded(k)) && Arriving(c, s, ScanEnded(k)) == Arriving(c, s, k) && !Barred(c, s, k)
    ensures Pressing(c, s, k) ==> Pressing(c, s, ScanEnded(k))
  {
    forall r: nat ensures !Found(c, s, k, r) { if r < |s.batches| { NoneIsFound(c, s, k, r); } }
    if Pressing(c, s, k) {
      var r: nat :| Found(c, s, k, r) || Overdue(c, s, k, r);
      assert Overdue(c, s, ScanEnded(k), r);
    }
  }

  lemma NoneIsFound(c: Config, s: State, k: Clock, r: nat)
    requires c.guaranteeMessageOrder && Invariant(c, s) && ScanEnds(c, s, k) && r < |s.batches|
    ensures !Found(c, s, k, r)
  {
    var tp := s.batches[r].tp;
    if Queued(s, r) {
      assert QueueOk(s, tp) && Increasing(Queue(s, tp)) && HeadLives(c, s, tp, k.phase.round);
      var m :| 0 <= m < |Queue(s, tp)| && Queue(s, tp)[m] == r;
      assert m > 0 ==> Queue(s, tp)[0] < Queue(s, tp)[m];
    }
  }
}
