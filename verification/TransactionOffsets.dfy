/**
 * Results and offsets over whole runs of the transaction manager: every result handed to the user is
 * accounted for, and what a commit knows about the offsets that were to be committed with it.
 */
module TransactionOffsets {
  import opened Common
  import opened Transactions
  import opened TransactionSafety

  // ----- results -----------------------------------------------------------------------

  /** Every result that is not done is held by one handler around, or was lost to a reply that raised. */
  predicate Balanced(s: Txn) {
    s.undone == Around(Awaited, s.queue, s.inFlight) + s.lost
  }

  lemma PushBalances(s: Txn, h: Handler)
    ensures Around(Awaited, Push(s, h).queue, s.inFlight) == Around(Awaited, s.queue, s.inFlight) + One(Awaited, h)
  {
    EnqueueAdds(s.queue, h);
  }

  lemma AddNewBalances(s: Txn)
    requires Balanced(s)
    ensures Balanced(AddNewPartitions(s))
  {
    if s.newPartitions != {} {
      var all := s.pendingPartitions + s.newPartitions;
      PushBalances(s.(pendingPartitions := all, newPartitions := {}), AddPartitions(all));
    }
  }

  lemma CommitBalances(s: Txn)
    requires Balanced(s) && s.phase == InTransaction
    ensures Balanced(Step(s, Commit))
  {
    AddNewBalances(s);
    PushBalances(AddNewPartitions(s), EndTxn(true));
    CommitStep(s);
  }

  lemma CallBalances(s: Txn, e: Event)
    requires Balanced(s)
    requires (e.Init? || e.Begin? || e.SendRecord? || e.SendOffsetsToTransaction? || e.Commit? || e.Abort?)
    ensures Balanced(Step(s, e))
  {
    if !Accepts(s.phase, e) {
      CallIsRefused(s, e);
    } else {
      match e {
        case Init =>
          PushBalances(s, InitProducerId);
          InitStep(s);
        case Begin =>
        case SendRecord(_) =>
        case SendOffsetsToTransaction(o) =>
          PushBalances(s, AddOffsets(o));
          SendOffsetsStep(s, o);
        case Commit => CommitBalances(s);
        case Abort =>
          PushBalances(s, EndTxn(false));
          AbortStep(s);
      }
    }
  }

  lemma PopBalances(s: Txn)
    requires Balanced(s) && s.inFlight.None? && s.queue != []
    ensures Balanced(Finish(s.(queue := s.queue[1..]), s.queue[0])) && Balanced(Release(s))
  {
  }

  lemma SkipBalances(s: Txn)
    requires Balanced(s) && s.inFlight.None? && s.queue != []
    ensures SkipEndTxn(s).Returns? ==> Balanced(SkipEndTxn(s).value)
  {
    PopBalances(s);
    var s1 := Finish(s.(queue := s.queue[1..]), s.queue[0]);
    var r := if s.phase == FatalError then Returns(s1) else CompleteTransaction(s1);
    if r.Returns? && r.value.queue != [] { PopBalances(r.value); }
  }

  lemma NextBalances(s: Txn)
    requires Balanced(s) && s.inFlight.None?
    ensures Balanced(Step(s, Next))
  {
    AddNewBalances(s);
    var s1 := AddNewPartitions(s);
    assert s1.inFlight.None?;
    if s1.queue != [] {
      PopBalances(s1);
      SkipBalances(s1);
    }
    NextProceeds(s);
  }

  /** The handler in flight is answered: its result is done or lost. */
  lemma LandingBalances(s: Txn)
    requires Balanced(s) && s.inFlight.Some?
    ensures Balanced(Stranded(s)) && Balanced(Finish(s.(inFlight := None), s.inFlight.value))
  {
  }

  lemma TryAgainBalances(s: Txn, lookup: bool)
    requires Balanced(s) && s.inFlight.Some?
    ensures Balanced(Step(s, Respond(TryAgain(lookup))))
  {
    var h, s0 := s.inFlight.value, s.(inFlight := None);
    PushBalances(s0, FindCoordinator);
    PushBalances(if lookup then Push(s0, FindCoordinator) else s0, h);
    TryAgainStep(s, lookup);
  }

  lemma SuccessBalances(s: Txn)
    requires Balanced(s) && s.inFlight.Some?
    ensures Balanced(Step(s, Respond(Success)))
  {
    var h := s.inFlight.value;
    LandingBalances(s);
    if h.AddOffsets? {
      var all := s.offsets.pending + h.offsets;
      PushBalances(s.(inFlight := None, offsets := s.offsets.(pending := all)), OffsetCommit(all));
      AddedOffsetsStep(s, h.offsets);
    }
  }

  lemma AbortableBalances(s: Txn)
    requires Balanced(s) && s.inFlight.Some?
    ensures Balanced(Step(s, Respond(Abortable)))
  {
    LandingBalances(s);
    AbortableReplyStep(s, s.inFlight.value, if Active(s.phase) then AbortableError else s.phase);
  }

  lemma ReplyBalances(s: Txn, r: Reply)
    requires Balanced(s) && s.inFlight.Some? && Fits(s, Respond(r))
    ensures Balanced(Step(s, Respond(r)))
  {
    LandingBalances(s);
    match r {
      case Success => SuccessBalances(s);
      case TryAgain(lookup) => TryAgainBalances(s, lookup);
      case Fatal => FatalStep(s);
      case Abortable => AbortableBalances(s);
      case Unhandled(abortable) => UnhandledStep(s, abortable);
      case Results(rs) => ResultsStep(s, s.inFlight.value, rs);
    }
  }

  lemma StepBalances(careful: bool, s: Txn, e: Event)
    requires Balanced(s) && Enabled(careful, s, e)
    ensures Balanced(Step(s, e))
  {
    if e.Next? {
      NextBalances(s);
    } else if e.Respond? {
      ReplyBalances(s, e.reply);
    } else if !(e.Produce? || e.BatchAcked? || e.BatchFailed? || e.BatchDropped? || e.Trouble?) {
      CallBalances(s, e);
    }
  }

  lemma {:induction false} RunBalances(careful: bool, s: Txn, es: seq<Event>)
    requires Balanced(s) && ValidRun(careful, s, es)
    ensures Balanced(Run(careful, s, es))
    decreases es
  {
    if es != [] {
      StepBalances(careful, s, es[0]);
      RunBalances(careful, Step(s, es[0]), es[1..]);
    }
  }

  /**
   * In every run, with a careful user or not: the results still to be done are exactly those of the
   * handlers queued or in flight and those lost to replies that raised.
   */
  lemma ResultsAreCounted(careful: bool, es: seq<Event>)
    requires ValidRun(careful, Start(), es)
    ensures Balanced(Run(careful, Start(), es))
  {
    RunBalances(careful, Start(), es);
  }

  // ----- offsets -----------------------------------------------------------------------

  predicate Carries(h: Handler, c: Commit) {
    (h.AddOffsets? || h.OffsetCommit?) && c in Items(h.offsets)
  }

  /** Some handler around will have the offset committed. */
  ghost predicate Carried(q: seq<Handler>, f: Option<Handler>, c: Commit) {
    exists h :: Alive(q, f, h) && Carries(h, c)
  }

  /** Every offset was accepted, and every error handled. */
  predicate Clean(s: Txn) {
    !s.offsets.refused && !s.unhandled
  }

  /** What the user asked for is acknowledged or on its way, as long as that is so. */
  ghost predicate Tracked(s: Txn) {
    Active(s.phase) && Clean(s) ==>
      forall c :: c in s.offsets.asked ==> c in s.offsets.acked || Carried(s.queue, s.inFlight, c)
  }

  /** Whose offsets a handler carries: the user's, or some left over from earlier transactions. */
  predicate Owns(o: OffsetCommits, h: Handler) {
    && (h.AddOffsets? ==> Items(h.offsets) <= o.asked)
    && (h.OffsetCommit? ==> Items(h.offsets) <= o.asked + o.stale)
  }

  ghost predicate Owned(s: Txn) {
    && s.offsets.acked <= s.offsets.asked + s.offsets.stale
    && Items(s.offsets.pending) <= s.offsets.asked + s.offsets.stale
    && forall h {:trigger Alive(s.queue, s.inFlight, h)} :: Alive(s.queue, s.inFlight, h) ==> Owns(s.offsets, h)
  }

  /** A transaction with offsets has been started. */
  ghost predicate Begun(s: Txn) {
    Active(s.phase) ==>
      && (s.offsets.acked != {} || s.offsets.refused ==> s.started)
      && forall h {:trigger Alive(s.queue, s.inFlight, h)} ::
           Alive(s.queue, s.inFlight, h) && h.OffsetCommit? ==> s.started
  }

  ghost predicate OffsetsOk(s: Txn) {
    Tracked(s) && Owned(s) && Begun(s)
  }

  /** The step has nothing to do with offsets: no handler for them comes, and none goes in an active transaction. */
  ghost predicate Quiet(s: Txn, s1: Txn) {
    && s1.offsets == s.offsets && (s.unhandled ==> s1.unhandled)
    && (Active(s1.phase) ==> Active(s.phase) && (s.started ==> s1.started))
    && (forall h {:trigger Alive(s1.queue, s1.inFlight, h)} ::
          Alive(s1.queue, s1.inFlight, h) && (h.AddOffsets? || h.OffsetCommit?) ==> Alive(s.queue, s.inFlight, h))
    && (Active(s1.phase) && !s1.unhandled ==> forall h {:trigger Alive(s.queue, s.inFlight, h)} ::
          Alive(s.queue, s.inFlight, h) && (h.AddOffsets? || h.OffsetCommit?) ==> Alive(s1.queue, s1.inFlight, h))
  }

  lemma QuietKeeps(s: Txn, s1: Txn)
    requires OffsetsOk(s) && Quiet(s, s1)
    ensures OffsetsOk(s1)
  {
    forall c | Active(s1.phase) && Clean(s1) && c in s1.offsets.asked
      ensures c in s1.offsets.acked || Carried(s1.queue, s1.inFlight, c)
    {
      if c !in s.offsets.acked {
        var h :| Alive(s.queue, s.inFlight, h) && Carries(h, c);
        assert Alive(s1.queue, s1.inFlight, h);
      }
    }
  }

  lemma PushIsQuiet(s: Txn, s1: Txn, h: Handler)
    requires Quiet(s, s1) && !h.AddOffsets? && !h.OffsetCommit?
    ensures Quiet(s, Push(s1, h))
  {
    EnqueueAdds(s1.queue, h);
    forall x ensures Alive(Push(s1, h).queue, s1.inFlight, x) <==> Alive(s1.queue, s1.inFlight, x) || x == h {}
  }

  lemma AddNewIsQuiet(s: Txn)
    ensures Quiet(s, AddNewPartitions(s))
  {
    if s.newPartitions != {} {
      var all := s.pendingPartitions + s.newPartitions;
      PushIsQuiet(s, s.(pendingPartitions := all, newPartitions := {}), AddPartitions(all));
    }
  }

  lemma CallIsQuiet(s: Txn, e: Event)
    requires e.Init? || e.SendRecord? || e.Commit? || e.Abort?
    ensures Quiet(s, Step(s, e))
  {
    if !Accepts(s.phase, e) {
      CallIsRefused(s, e);
    } else {
      match e {
        case Init =>
          InitStep(s);
          PushIsQuiet(s, s.(phase := Initializing, undone := s.undone + 1), InitProducerId);
        case SendRecord(_) =>
        case Commit =>
          AddNewIsQuiet(s);
          CommitStep(s);
          PushIsQuiet(s, AddNewPartitions(s).(phase := CommittingTransaction, undone := s.undone + 1), EndTxn(true));
        case Abort =>
          AbortStep(s);
          PushIsQuiet(s, s.(phase := AbortingTransaction, undone := s.undone + 1, newPartitions := {}), EndTxn(false));
      }
    }
  }

  lemma PopIsQuiet(s: Txn, s1: Txn)
    requires s.queue != [] && !Active(s1.phase) && s1.offsets == s.offsets && s1.unhandled == s.unhandled
    requires s1.queue == s.queue[1..] && s1.inFlight == s.inFlight
    ensures Quiet(s, s1)
  {
    assert forall h :: h in s1.queue ==> h in s.queue;
  }

  lemma ReleaseIsQuiet(s: Txn)
    requires s.queue != [] && s.inFlight.None?
    ensures Quiet(s, Release(s))
  {
    assert s.queue == [s.queue[0]] + s.queue[1..];
    forall h ensures Alive(Release(s).queue, Release(s).inFlight, h) <==> Alive(s.queue, s.inFlight, h) {}
  }

  lemma SkipIsQuiet(s: Txn)
    requires s.queue != [] && SkipEndTxn(s).Returns? && SkipEndTxn(s).value.queue == [] && !HasError(s)
    requires SkipEndTxn(s).value.inFlight.None?
    ensures Quiet(s, SkipEndTxn(s).value)
  {
  }

  lemma ProceedingKeepsOffsets(s: Txn, s1: Txn)
    requires Invariant(s) && OffsetsOk(s) && s.inFlight.None? && Proceeds(s, s1)
    ensures OffsetsOk(s1)
  {
    if s.queue != [] && !(s.queue[0].EndTxn? && s.incomplete != multiset{}) {
      if Terminated(s, s.queue[0]) {
        PopIsQuiet(s, s1);
      } else if s.queue[0].EndTxn? && !s.started {
        SkipKeeps(s);
        SkipIsQuiet(s);
      } else {
        ReleaseIsQuiet(s);
      }
      QuietKeeps(s, s1);
    }
  }

  lemma NextKeepsOffsets(s: Txn)
    requires Invariant(s) && OffsetsOk(s) && s.inFlight.None?
    ensures OffsetsOk(Step(s, Next))
  {
    AddNewIsQuiet(s);
    QuietKeeps(s, AddNewPartitions(s));
    AddNewInvariant(s);
    NextProceeds(s);
    ProceedingKeepsOffsets(AddNewPartitions(s), Step(s, Next));
  }

  // ----- steps with offsets ------------------------------------------------------------

  lemma BeginKeepsOffsets(s: Txn)
    requires Invariant(s) && s.phase == Ready
    ensures OffsetsOk(Step(s, Begin))
  {
    NothingAround(s);
  }

  lemma SendOffsetsKeepsOffsets(s: Txn, o: Offsets)
    requires OffsetsOk(s) && s.phase == InTransaction
    ensures OffsetsOk(Step(s, SendOffsetsToTransaction(o)))
  {
    var s1 := s.(undone := s.undone + 1, offsets := s.offsets.(asked := s.offsets.asked + Items(o)));
    var h, s2 := AddOffsets(o), Push(s1, AddOffsets(o));
    SendOffsetsStep(s, o);
    EnqueueAdds(s.queue, h);
    forall x ensures Alive(s2.queue, s2.inFlight, x) <==> Alive(s.queue, s.inFlight, x) || x == h {}
    forall c | c in s2.offsets.asked && Active(s2.phase) && Clean(s2) && c !in s2.offsets.acked
      ensures Carried(s2.queue, s2.inFlight, c)
    {
      if c in s.offsets.asked {
        var x :| Alive(s.queue, s.inFlight, x) && Carries(x, c);
        assert Alive(s2.queue, s2.inFlight, x);
      } else {
        assert Alive(s2.queue, s2.inFlight, h) && Carries(h, c);
      }
    }
  }

  lemma TryAgainIsQuiet(s: Txn, lookup: bool)
    requires s.inFlight.Some?
    ensures Quiet(s, Step(s, Respond(TryAgain(lookup))))
  {
    var h, s0 := s.inFlight.value, s.(inFlight := None);
    var s1 := if lookup then Push(s0, FindCoordinator) else s0;
    EnqueueAdds(s0.queue, FindCoordinator);
    EnqueueAdds(s1.queue, h);
    var s2 := Push(s1, h);
    TryAgainStep(s, lookup);
    forall x | x != FindCoordinator ensures Alive(s2.queue, s2.inFlight, x) <==> Alive(s.queue, s.inFlight, x) {}
  }

  /** A handler that has nothing to do with offsets is answered, or the transaction is no longer active. */
  lemma LandingIsQuiet(s: Txn, s1: Txn)
    requires s.inFlight.Some? && Lands(s, s1)
    ensures Quiet(s, s1)
  {
  }

  lemma AddedOffsetsKeep(s: Txn, o: Offsets)
    requires OffsetsOk(s) && s.inFlight == Some(AddOffsets(o))
    ensures OffsetsOk(Step(s, Respond(Success)))
  {
    AddedOffsetsStep(s, o);
    var s1 := Step(s, Respond(Success));
    var all := s.offsets.pending + o;
    var h := OffsetCommit(all);
    EnqueueAdds(s.queue, h);
    assert Alive(s.queue, s.inFlight, AddOffsets(o)) && Items(o) <= s.offsets.asked;
    assert Items(all) <= Items(s.offsets.pending) + Items(o);
    forall x ensures Alive(s1.queue, s1.inFlight, x) <==> x in s.queue || x == h {}
    forall x | Alive(s1.queue, s1.inFlight, x) ensures Owns(s1.offsets, x) {
      if x != h { assert Alive(s.queue, s.inFlight, x); }
    }
    forall c | Active(s1.phase) && Clean(s1) && c in s1.offsets.asked && c !in s1.offsets.acked
      ensures Carried(s1.queue, s1.inFlight, c)
    {
      var x :| Alive(s.queue, s.inFlight, x) && Carries(x, c);
      AddedStaysCarried(s, s1, o, x, c);
    }
  }

  lemma AddedStaysCarried(s: Txn, s1: Txn, o: Offsets, x: Handler, c: Commit)
    requires s.inFlight == Some(AddOffsets(o)) && Alive(s.queue, s.inFlight, x) && Carries(x, c)
    requires OffsetCommit(s.offsets.pending + o) in s1.queue && (x in s.queue ==> x in s1.queue)
    ensures Carried(s1.queue, s1.inFlight, c)
  {
    var h := OffsetCommit(s.offsets.pending + o);
    if x in s.queue {
      assert Alive(s1.queue, s1.inFlight, x);
    } else {
      assert Alive(s1.queue, s1.inFlight, h) && Carries(h, c);
    }
  }

  lemma {:induction false} ClearShrinks(pending: Offsets, rs: seq<(TopicPartition, bool)>)
    ensures Items(Clear(pending, rs).left) <= Items(pending)
    decreases |rs|
  {
    if rs != [] && rs[0].1 && rs[0].0 in pending {
      ClearShrinks(pending - {rs[0].0}, rs[1..]);
    }
  }

  lemma NothingRefused(o: Offsets, rs: seq<(TopicPartition, bool)>)
    requires AnswersFor(o, rs) && !Refuses(rs)
    ensures Accepted(o, rs) == Items(o)
  {
    assert forall tp :: (tp, false) !in rs;
  }

  lemma ResultsKeepOffsets(s: Txn, o: Offsets, rs: seq<(TopicPartition, bool)>)
    requires OffsetsOk(s) && s.inFlight == Some(OffsetCommit(o)) && AnswersFor(o, rs)
    ensures OffsetsOk(Step(s, Respond(Results(rs))))
  {
    ResultsStep(s, OffsetCommit(o), rs);
    var s1 := Step(s, Respond(Results(rs)));
    ClearShrinks(s.offsets.pending, rs);
    assert Alive(s.queue, s.inFlight, OffsetCommit(o));
    assert Accepted(o, rs) <= Items(o);
    forall x | Alive(s1.queue, s1.inFlight, x) ensures Owns(s1.offsets, x) { assert Alive(s.queue, s.inFlight, x); }
    forall c | Active(s1.phase) && Clean(s1) && c in s1.offsets.asked && c !in s1.offsets.acked
      ensures Carried(s1.queue, s1.inFlight, c)
    {
      NothingRefused(o, rs);
      var x :| Alive(s.queue, s.inFlight, x) && Carries(x, c);
      assert Alive(s1.queue, s1.inFlight, x);
    }
  }

  lemma ReplyKeepsOffsets(s: Txn, r: Reply)
    requires Invariant(s) && OffsetsOk(s) && Enabled(true, s, Respond(r))
    ensures OffsetsOk(Step(s, Respond(r)))
  {
    var h, s1 := s.inFlight.value, Step(s, Respond(r));
    if r.Results? {
      ResultsKeepOffsets(s, h.offsets, r.results);
    } else if r.Success? && h.AddOffsets? {
      AddedOffsetsKeep(s, h.offsets);
    } else if r.TryAgain? {
      TryAgainIsQuiet(s, r.lookup);
      QuietKeeps(s, s1);
    } else {
      ReplyLands(s, r);
      LandingIsQuiet(s, s1);
      QuietKeeps(s, s1);
    }
  }

  /** Other replies end the handler, and if it was about offsets the transaction is no longer active. */
  lemma ReplyLands(s: Txn, r: Reply)
    requires s.inFlight.Some? && Answerable(s.inFlight.value, r) && !r.Results? && !r.TryAgain?
    requires r.Success? ==> !s.inFlight.value.AddOffsets?
    ensures Lands(s, Step(s, Respond(r)))
  {
    match r {
      case Success => SuccessLands(s);
      case Fatal => FatalStep(s);
      case Abortable => AbortableReplyStep(s, s.inFlight.value, if Active(s.phase) then AbortableError else s.phase);
      case Unhandled(abortable) => UnhandledStep(s, abortable);
    }
  }

  predicate Lands(s: Txn, s1: Txn)
    requires s.inFlight.Some?
  {
    && s1.inFlight.None? && s1.queue == s.queue && s1.offsets == s.offsets
    && (s.unhandled ==> s1.unhandled)
    && (Active(s1.phase) ==>
          && Active(s.phase) && (s.started ==> s1.started)
          && (s1.unhandled || (!s.inFlight.value.AddOffsets? && !s.inFlight.value.OffsetCommit?)))
  }

  lemma SuccessLands(s: Txn)
    requires s.inFlight.Some? && !s.inFlight.value.AddOffsets? && !s.inFlight.value.OffsetCommit?
    ensures Lands(s, Step(s, Respond(Success)))
  {
    match s.inFlight.value {
      case FindCoordinator => assert Step(s, Respond(Success)) == s.(inFlight := None);
      case InitProducerId => InitializedStep(s);
      case AddPartitions(tps) => AddedStep(s, tps);
      case EndTxn(committed) =>
        if TransitionValid(s.phase, Ready) { EndedStep(s, committed); } else { EndRaises(s, committed); }
    }
  }

  lemma BatchIsQuiet(s: Txn, e: Event)
    requires e.Produce? || e.BatchAcked? || e.BatchFailed? || e.BatchDropped? || e.Trouble?
    ensures Quiet(s, Step(s, e))
  {
    BatchStep(s, e);
  }

  lemma StepKeepsOffsets(s: Txn, e: Event)
    requires Invariant(s) && OffsetsOk(s) && Enabled(true, s, e)
    ensures OffsetsOk(Step(s, e))
  {
    match e {
      case Next => NextKeepsOffsets(s);
      case Respond(r) => ReplyKeepsOffsets(s, r);
      case Begin => if s.phase == Ready { BeginKeepsOffsets(s); }
      case SendOffsetsToTransaction(o) => if s.phase == InTransaction { SendOffsetsKeepsOffsets(s, o); }
      case _ =>
        if e.Init? || e.SendRecord? || e.Commit? || e.Abort? { CallIsQuiet(s, e); } else { BatchIsQuiet(s, e); }
        QuietKeeps(s, Step(s, e));
    }
  }

  lemma {:induction false} RunKeepsOffsets(s: Txn, es: seq<Event>)
    requires Invariant(s) && OffsetsOk(s) && ValidRun(true, s, es)
    ensures Invariant(Run(true, s, es)) && OffsetsOk(Run(true, s, es))
    decreases es
  {
    if es != [] {
      StepKeepsInvariant(s, es[0]);
      StepKeepsOffsets(s, es[0]);
      RunKeepsOffsets(Step(s, es[0]), es[1..]);
    }
  }

  // ----- commits -----------------------------------------------------------------------

  lemma GoodStart()
    ensures Invariant(Start()) && OffsetsOk(Start())
  {
    StartIsGood();
  }

  /**
   * Commit safety. In every run with a user who never aborts while a commit is pending, when
   * the sender releases an EndTxn that commits:
   */
  lemma CommitSafety(es: seq<Event>)
    requires ValidRun(true, Start(), es) && Run(true, Start(), es).inFlight.None?
    ensures var s := Run(true, Start(), es);
            var s1 := Step(s, Next);
            s1.inFlight == Some(EndTxn(true)) ==>
              // the transaction is committing, and no other request is queued or in flight
              && s1.phase == CommittingTransaction && s1.queue == []
              // no batch is incomplete and none has failed
              && s1.incomplete == multiset{} && !s1.failed
              // every partition the user sent to was added, and was produced to after that
              && s1.named == s1.partitions && s1.named <= s1.produced <= s1.partitions
              // every offset the user added was acknowledged, unless one was refused or an error not handled
              && (Clean(s1) ==> s1.offsets.asked <= s1.offsets.acked)
  {
    GoodStart();
    RunKeepsOffsets(Start(), es);
    var s := Run(true, Start(), es);
    NextKeeps(s);
    NextKeepsOffsets(s);
    ReleasedIsSafe(s);
    var s1 := Step(s, Next);
    if s1.inFlight == Some(EndTxn(true)) { NothingCarried(s1); }
  }

  /** With only an EndTxn around, what the user asked for is acknowledged. */
  lemma NothingCarried(s: Txn)
    requires Tracked(s) && Active(s.phase) && forall h :: Alive(s.queue, s.inFlight, h) ==> h.EndTxn?
    ensures Clean(s) ==> s.offsets.asked <= s.offsets.acked
  {
    forall c | c in s.offsets.asked && Clean(s) ensures c in s.offsets.acked {
      assert !Carried(s.queue, s.inFlight, c);
    }
  }

  /**
   * An EndTxn is skipped only if nothing was added to the transaction: no partition, no
   * offsets; and a commit only if the user sent nothing at all and added no offset, unless an error
   * in a response was not handled.
   */
  lemma SkippedOnlyIfEmpty(es: seq<Event>)
    requires ValidRun(true, Start(), es) && Run(true, Start(), es).inFlight.None?
    ensures var s := AddNewPartitions(Run(true, Start(), es));
            s.queue != [] && s.queue[0].EndTxn? && s.incomplete == multiset{} && !Terminated(s, s.queue[0])
              && !s.started ==>
              && s.partitions == {} && !s.offsetsAdded
              && (s.queue[0].committed ==> s.named == {} && (!s.unhandled ==> s.offsets.asked == {}))
              && NextRequest(Run(true, Start(), es)).Returns?
              && NextRequest(Run(true, Start(), es)).value.phase == Ready
  {
    GoodStart();
    RunKeepsOffsets(Start(), es);
    AddNewInvariant(Run(true, Start(), es));
    AddNewIsQuiet(Run(true, Start(), es));
    var s := AddNewPartitions(Run(true, Start(), es));
    QuietKeeps(Run(true, Start(), es), s);
    if s.queue != [] && s.queue[0].EndTxn? && s.incomplete == multiset{} && !Terminated(s, s.queue[0]) && !s.started {
      SkipKeeps(s);
      assert Alive(s.queue, s.inFlight, s.queue[0]);
      EndTxnIsLast(s);
      if s.queue[0].committed {
        NamedWereAdded(s);
        NothingCarried(s);
      }
    }
  }

  /** Offsets acknowledged for a transaction are the user's, or were left pending when it began. */
  lemma AckedWereAsked(es: seq<Event>)
    requires ValidRun(true, Start(), es)
    ensures var o := Run(true, Start(), es).offsets; o.acked <= o.asked + o.stale
  {
    GoodStart();
    RunKeepsOffsets(Start(), es);
  }

  /**
   * The answer to an offset commit lets the user's result be done if and only if no offset is refused and
   * all of the request are still pending. Then none of them is pending any more.
   */
  lemma {:induction false} DoneIffAllPending(pending: Offsets, rs: seq<(TopicPartition, bool)>)
    requires forall i, j :: 0 <= i < j < |rs| ==> rs[i].0 != rs[j].0
    ensures Clear(pending, rs).problem.None? <==> !Refuses(rs) && forall i :: 0 <= i < |rs| ==> rs[i].0 in pending
    ensures Clear(pending, rs).problem.None? ==> Clear(pending, rs).left == pending - (set r | r in rs :: r.0)
    decreases |rs|
  {
    if rs != [] {
      var rest := rs[1..];
      assert forall i :: 0 < i < |rs| ==> rs[i] == rest[i - 1];
      assert forall i :: 0 <= i < |rest| ==> rest[i] == rs[i + 1];
      assert Refuses(rs) <==> !rs[0].1 || Refuses(rest);
      assert (set r | r in rs :: r.0) == {rs[0].0} + set r | r in rest :: r.0;
      if rs[0].1 && rs[0].0 in pending { DoneIffAllPending(pending - {rs[0].0}, rest); }
    }
  }

  /** An answer to an offset commit in which every partition has the same result. */
  lemma {:induction false} Listing(o: Offsets, accepted: bool) returns (rs: seq<(TopicPartition, bool)>)
    ensures AnswersFor(o, rs) && forall i :: 0 <= i < |rs| ==> rs[i].1 == accepted
    decreases |o|
  {
    if o == map[] {
      rs := [];
    } else {
      var tp :| tp in o;
      var rest := Listing(o - {tp}, accepted);
      rs := [(tp, accepted)] + rest;
      ListingGrows(o, tp, accepted, rest, rs);
    }
  }

  lemma ListingGrows(o: Offsets, tp: TopicPartition, accepted: bool, rest: seq<(TopicPartition, bool)>,
          rs: seq<(TopicPartition, bool)>)
    requires tp in o && AnswersFor(o - {tp}, rest) && rs == [(tp, accepted)] + rest
    requires forall i :: 0 <= i < |rest| ==> rest[i].1 == accepted
    ensures AnswersFor(o, rs) && forall i :: 0 <= i < |rs| ==> rs[i].1 == accepted
  {
    assert rs[0] == (tp, accepted) && forall i :: 0 < i < |rs| ==> rs[i] == rest[i - 1] && rs[i].0 in o - {tp};
    forall x | x in o ensures (x, true) in rs || (x, false) in rs {
      if x == tp { assert rs[0] in rs; } else { assert x in o - {tp}; }
    }
  }
}
