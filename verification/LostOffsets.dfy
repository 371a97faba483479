/**
 * Two ways in which the offsets committed with a transaction are not the user's, and when: a refused
 * offset is lost while the transaction can still be committed, and offsets that stay pending after a
 * transaction has ended are committed with the next one.
 */
module LostOffsets {
  import opened Common
  import opened Transactions
  import opened TransactionSafety
  import opened TransactionOffsets
  import opened CarelessAborts

  // ----- refused offsets ---------------------------------------------------------------

  /** The offset is not acknowledged, no request carries it, and none will be built that does. */
  ghost predicate Forsaken(s: Txn, c: Commit) {
    c !in s.offsets.acked && forall h {:trigger Alive(s.queue, s.inFlight, h)} ::
      Alive(s.queue, s.inFlight, h) ==> !Carries(h, c) && !h.AddOffsets?
  }

  /** The run stays in its transaction, and the user adds no more offsets. */
  predicate NoMoreOffsets(es: seq<Event>) {
    forall i :: 0 <= i < |es| ==> !es[i].Begin? && !es[i].SendOffsetsToTransaction?
  }

  lemma QuietStaysForsaken(s: Txn, s1: Txn, c: Commit)
    requires Forsaken(s, c) && Quiet(s, s1)
    ensures Forsaken(s1, c)
  {
  }

  /** Whatever becomes of the head of the queue, no handler comes. */
  lemma SkipShrinks(s: Txn, h: Handler)
    requires s.inFlight.None? && s.queue != []
    requires SkipEndTxn(s).Returns? && Alive(SkipEndTxn(s).value.queue, SkipEndTxn(s).value.inFlight, h)
    ensures Alive(s.queue, s.inFlight, h)
  {
    SkipPops(s);
    InTail(s.queue, h);
    if s.queue[1..] != [] { InTail(s.queue[1..], h); }
  }

  lemma SkipPops(s: Txn)
    requires s.queue != [] && SkipEndTxn(s).Returns?
    ensures var s1, rest := SkipEndTxn(s).value, s.queue[1..];
            (s1.queue == rest && s1.inFlight == s.inFlight)
            || (rest != [] && s1.queue == rest[1..] && s1.inFlight == Some(rest[0]))
  {
  }

  lemma InTail(q: seq<Handler>, h: Handler)
    requires q != []
    ensures h in q <==> h == q[0] || h in q[1..]
  {
    assert q == [q[0]] + q[1..];
  }

  lemma NextShrinks(s0: Txn, s1: Txn, h: Handler)
    requires s0.inFlight.None? && Proceeds(s0, s1) && Alive(s1.queue, s1.inFlight, h)
    ensures Alive(s0.queue, s0.inFlight, h)
  {
    if s0.queue != [] && SkipEndTxn(s0) == Returns(s1) { SkipShrinks(s0, h); }
  }

  lemma NextStaysForsaken(s: Txn, c: Commit)
    requires Forsaken(s, c) && s.inFlight.None?
    ensures Forsaken(Step(s, Next), c)
  {
    AddNewIsQuiet(s);
    var s1 := AddNewPartitions(s);
    QuietStaysForsaken(s, s1, c);
    var s2 := Step(s, Next);
    NextKeepsAcked(s);
    NextProceeds(s);
    forall h | Alive(s2.queue, s2.inFlight, h) ensures Alive(s1.queue, s1.inFlight, h) { NextShrinks(s1, s2, h); }
  }

  lemma NextKeepsAcked(s: Txn)
    ensures Step(s, Next).offsets == s.offsets
  {
    assert AddNewPartitions(s).offsets == s.offsets;
    NextProceeds(s);
  }

  lemma ReplyStaysForsaken(careful: bool, s: Txn, r: Reply, c: Commit)
    requires Forsaken(s, c) && Enabled(careful, s, Respond(r))
    ensures Forsaken(Step(s, Respond(r)), c)
  {
    var h, s1 := s.inFlight.value, Step(s, Respond(r));
    assert Alive(s.queue, s.inFlight, h);
    if r.Results? {
      ResultsStep(s, h, r.results);
      assert Accepted(h.offsets, r.results) <= Items(h.offsets);
      forall x | Alive(s1.queue, s1.inFlight, x) ensures Alive(s.queue, s.inFlight, x) {}
    } else {
      if r.TryAgain? {
        TryAgainIsQuiet(s, r.lookup);
      } else {
        ReplyLands(s, r);
        LandingIsQuiet(s, s1);
      }
      QuietStaysForsaken(s, s1, c);
    }
  }

  lemma StepStaysForsaken(careful: bool, s: Txn, e: Event, c: Commit)
    requires Forsaken(s, c) && Enabled(careful, s, e) && !e.Begin? && !e.SendOffsetsToTransaction?
    ensures Forsaken(Step(s, e), c)
  {
    if e.Next? {
      NextStaysForsaken(s, c);
    } else if e.Respond? {
      ReplyStaysForsaken(careful, s, e.reply, c);
    } else {
      if e.Init? || e.SendRecord? || e.Commit? || e.Abort? { CallIsQuiet(s, e); } else { BatchIsQuiet(s, e); }
      QuietStaysForsaken(s, Step(s, e), c);
    }
  }

  lemma {:induction false} RunStaysForsaken(careful: bool, s: Txn, es: seq<Event>, c: Commit)
    requires Forsaken(s, c) && ValidRun(careful, s, es) && NoMoreOffsets(es)
    ensures Forsaken(Run(careful, s, es), c)
    decreases es
  {
    if es != [] {
      StepStaysForsaken(careful, s, es[0], c);
      assert forall i :: 0 <= i < |es[1..]| ==> es[1..][i] == es[i + 1];
      RunStaysForsaken(careful, Step(s, es[0]), es[1..], c);
    }
  }

  /**
   * An offset that a broker refuses and that no other request around carries: the reply raises, the
   * transaction goes on in its phase, the user's result is never done, and however the transaction goes
   * on without further offsets, the offset is not committed with it.
   */
  lemma RefusedIsLost(careful: bool, s: Txn, o: Offsets, rs: seq<(TopicPartition, bool)>, tp: TopicPartition,
          es: seq<Event>)
    requires s.inFlight == Some(OffsetCommit(o)) && AnswersFor(o, rs) && tp in o && (tp, false) in rs
    requires (tp, o[tp]) !in s.offsets.acked
    requires forall h :: h in s.queue ==> !Carries(h, (tp, o[tp])) && !h.AddOffsets?
    requires ValidRun(careful, Step(s, Respond(Results(rs))), es) && NoMoreOffsets(es)
    ensures var s1 := Step(s, Respond(Results(rs)));
            && s1.phase == s.phase && s1.undone == s.undone && s1.lost == s.lost + 1
            && (tp, o[tp]) !in Run(careful, s1, es).offsets.acked
  {
    var s1 := Step(s, Respond(Results(rs)));
    ResultsStep(s, OffsetCommit(o), rs);
    DoneIffAllPending(s.offsets.pending, rs);
    OneResult(o, rs, tp);
    RunStaysForsaken(careful, s1, es, (tp, o[tp]));
  }

  lemma OneResult(o: Offsets, rs: seq<(TopicPartition, bool)>, tp: TopicPartition)
    requires AnswersFor(o, rs) && (tp, false) in rs
    ensures Refuses(rs) && (tp, true) !in rs
  {
    var i :| 0 <= i < |rs| && rs[i] == (tp, false);
    forall j | 0 <= j < |rs| ensures rs[j] != (tp, true) {
      if j < i { assert rs[j].0 != rs[i].0; }
    }
  }

  const FIVE: Offsets := map[P := 5]

  /** In a transaction with an offset to be committed. */
  function WithOffset(): Txn {
    var offsets := OffsetCommits(FIVE, Items(FIVE), {}, false, {});
    Start().(phase := InTransaction, undone := 1, started := true, offsetsAdded := true, offsets := offsets,
             queue := [OffsetCommit(FIVE)])
  }

  lemma WithOffsetIsReachable()
    ensures Reachable(true, WithOffset())
  {
    ReadyIsReachable(true);
    var s0 := Start().(phase := Ready);
    var s1 := s0.(phase := InTransaction);
    assert Items(map[]) == {};
    Reach(true, s0, Begin, s1);
    var o := s1.offsets.(asked := Items(FIVE));
    var s2 := s1.(undone := 1, offsets := o, queue := [AddOffsets(FIVE)]);
    assert s1.offsets.asked + Items(FIVE) == Items(FIVE);
    SendOffsetsStep(s1, FIVE);
    Reach(true, s1, SendOffsetsToTransaction(FIVE), s2);
    AddedIsReachable(s2);
  }

  lemma AddedIsReachable(s2: Txn)
    requires Reachable(true, s2)
    requires var o := Start().offsets.(asked := Items(FIVE));
             s2 == Start().(phase := InTransaction, undone := 1, offsets := o, queue := [AddOffsets(FIVE)])
    ensures Reachable(true, WithOffset())
  {
    var s3 := s2.(queue := [], inFlight := Some(AddOffsets(FIVE)));
    NextReleases(s2);
    Reach(true, s2, Next, s3);
    assert s3.offsets.pending + FIVE == FIVE;
    AddedOffsetsStep(s3, FIVE);
    Reach(true, s3, Respond(Success), WithOffset());
  }

  /** A transaction whose only offset was refused can be committed. */
  lemma RefusedOffsetCanBeCommitted()
    ensures exists s ::
              && Reachable(true, s) && s.phase == CommittingTransaction && s.inFlight == Some(EndTxn(true))
              && s.offsets.asked == {(P, 5)} && s.offsets.acked == {} && s.lost == 1
  {
    WithOffsetIsReachable();
    var s0 := WithOffset();
    var s1 := s0.(queue := [], inFlight := Some(OffsetCommit(FIVE)));
    NextReleases(s0);
    Reach(true, s0, Next, s1);
    RefusedIsReachable(s1);
    var s2 := s1.(inFlight := None, lost := 1, offsets := s0.offsets.(refused := true));
    var s3 := s2.(phase := CommittingTransaction, undone := 2, queue := [EndTxn(true)]);
    CommitStep(s2);
    Reach(true, s2, Commit, s3);
    var s4 := s3.(queue := [], inFlight := Some(EndTxn(true)));
    NextReleases(s3);
    Reach(true, s3, Next, s4);
    ItemsOfFive();
  }

  lemma ItemsOfFive()
    ensures Items(FIVE) == {(P, 5)}
  {
    assert P in FIVE && FIVE[P] == 5 && FIVE.Keys == {P};
    assert forall c :: c in Items(FIVE) <==> c == (P, 5);
  }

  lemma RefusedIsReachable(s1: Txn)
    requires Reachable(true, s1) && s1 == WithOffset().(queue := [], inFlight := Some(OffsetCommit(FIVE)))
    ensures Reachable(true, s1.(inFlight := None, lost := 1, offsets := s1.offsets.(refused := true)))
  {
    var rs := [(P, false)];
    ResultsStep(s1, OffsetCommit(FIVE), rs);
    assert !rs[0].1 && Refuses(rs) && Accepted(FIVE, rs) == {};
    var s2 := s1.(inFlight := None, lost := 1, offsets := s1.offsets.(refused := true));
    assert Recorded(s1, FIVE, rs).offsets == s2.offsets;
    assert AnswersFor(FIVE, rs);
    Reach(true, s1, Respond(Results(rs)), s2);
  }

  // ----- offsets of earlier transactions -----------------------------------------------

  /** An offset was committed with the transaction that the user did not add to it. */
  predicate Strays(s: Txn) {
    !(s.offsets.acked <= s.offsets.asked)
  }

  /** The current transaction can lead to it. */
  ghost predicate CanStray(s: Txn) {
    exists es :: ValidRun(true, s, es) && NoBegin(es) && Strays(Run(true, s, es))
  }

  predicate NoBegin(es: seq<Event>) {
    forall i :: 0 <= i < |es| ==> !es[i].Begin?
  }

  lemma StraysNow(s: Txn)
    requires Strays(s)
    ensures CanStray(s)
  {
    assert ValidRun(true, s, []) && Run(true, s, []) == s && NoBegin([]);
  }

  lemma StraysLater(s: Txn, e: Event, s1: Txn)
    requires Enabled(true, s, e) && !e.Begin? && Step(s, e) == s1 && CanStray(s1)
    ensures CanStray(s)
  {
    var es :| ValidRun(true, s1, es) && NoBegin(es) && Strays(Run(true, s1, es));
    assert ([e] + es)[0] == e && ([e] + es)[1..] == es;
    assert ValidRun(true, s, [e] + es) && Run(true, s, [e] + es) == Run(true, s1, es) && NoBegin([e] + es);
  }

  lemma {:induction false} RunKeepsStale(s: Txn, es: seq<Event>)
    requires ValidRun(true, s, es) && NoBegin(es)
    ensures Run(true, s, es).offsets.stale == s.offsets.stale
    decreases es
  {
    if es != [] {
      assert forall i :: 0 <= i < |es[1..]| ==> es[1..][i] == es[i + 1];
      StepKeepsStale(s, es[0]);
      RunKeepsStale(Step(s, es[0]), es[1..]);
    }
  }

  lemma StepKeepsStale(s: Txn, e: Event)
    requires Fits(s, e) && !e.Begin?
    ensures Step(s, e).offsets.stale == s.offsets.stale
  {
    match e {
      case Next => NextKeepsAcked(s);
      case Commit => if s.phase == InTransaction { CommitStep(s); }
      case Respond(r) => ReplyKeepsStale(s, r);
      case _ =>
    }
  }

  lemma ReplyKeepsStale(s: Txn, r: Reply)
    requires Fits(s, Respond(r)) && s.inFlight.Some?
    ensures Step(s, Respond(r)).offsets.stale == s.offsets.stale
  {
    match r {
      case Success =>
      case TryAgain(lookup) => TryAgainStep(s, lookup);
      case Fatal => FatalStep(s);
      case Abortable => AbortableReplyStep(s, s.inFlight.value, if Active(s.phase) then AbortableError else s.phase);
      case Unhandled(abortable) => UnhandledStep(s, abortable);
      case Results(rs) => ResultsStep(s, s.inFlight.value, rs);
    }
  }

  /** In a transaction, with only coordinator lookups around, and these offsets pending. */
  ghost predicate Poised(s: Txn, pending: Offsets) {
    && s.phase == InTransaction && s.newPartitions == {} && (forall h :: h in s.queue ==> h.FindCoordinator?)
    && s.inFlight in {None, Some(FindCoordinator)}
    && s.offsets.pending == pending && s.offsets.asked == {}
  }

  /** The user adds offsets that leave out a pending partition, and the broker accepts all it is sent. */
  lemma NextCallStrays(s: Txn, pending: Offsets, o: Offsets, tp: TopicPartition)
    requires Poised(s, pending) && s.queue == [] && s.inFlight.None? && tp in pending && tp !in o
    ensures CanStray(s)
  {
    var s1 := s.(undone := s.undone + 1, offsets := s.offsets.(asked := s.offsets.asked + Items(o)),
                 queue := [AddOffsets(o)]);
    var s2 := s1.(queue := [], inFlight := Some(AddOffsets(o)));
    var all := pending + o;
    var s3 := s2.(inFlight := None, started := true, offsetsAdded := true, offsets := s1.offsets.(pending := all),
                  queue := [OffsetCommit(all)]);
    var s4 := s3.(queue := [], inFlight := Some(OffsetCommit(all)));
    AcceptedStrays(s4, all, tp);
    NextReleases(s3);
    StraysLater(s3, Next, s4);
    AddedOffsetsStep(s2, o);
    StraysLater(s2, Respond(Success), s3);
    NextReleases(s1);
    StraysLater(s1, Next, s2);
    SendOffsetsStep(s, o);
    StraysLater(s, SendOffsetsToTransaction(o), s1);
  }

  lemma AcceptedStrays(s: Txn, o: Offsets, tp: TopicPartition)
    requires s.inFlight == Some(OffsetCommit(o)) && tp in o && (tp, o[tp]) !in s.offsets.asked
    ensures CanStray(s)
  {
    var rs := Listing(o, true);
    ResultsStep(s, OffsetCommit(o), rs);
    NothingRefused(o, rs);
    var s1 := Step(s, Respond(Results(rs)));
    assert (tp, o[tp]) in s1.offsets.acked;
    StraysNow(s1);
    StraysLater(s, Respond(Results(rs)), s1);
  }

  /** Lookups around are answered first. */
  lemma {:induction false} LookupsStray(s: Txn, pending: Offsets, tp: TopicPartition)
    requires Poised(s, pending) && tp in pending
    ensures CanStray(s)
    decreases |s.queue|, s.inFlight.Some?
  {
    if s.inFlight.Some? {
      var s1 := s.(inFlight := None);
      LookupsStray(s1, pending, tp);
      StraysLater(s, Respond(Success), s1);
    } else if s.queue != [] {
      assert s.queue[0] in s.queue;
      var s1 := s.(queue := s.queue[1..], inFlight := Some(FindCoordinator));
      LookupsStray(s1, pending, tp);
      StraysLater(s, Next, s1);
    } else {
      NextCallStrays(s, pending, map[], tp);
    }
  }

  /**
   * The exact condition. After any run with careful calls that leaves the manager ready, the transaction begun
   * next can commit an offset that was not added to it if and only if offsets are still pending.
   */
  lemma StaleOffsetsStray(es: seq<Event>)
    requires ValidRun(true, Start(), es) && Run(true, Start(), es).phase == Ready
    ensures var s := Run(true, Start(), es); CanStray(Step(s, Begin)) <==> s.offsets.pending != map[]
  {
    GoodStart();
    RunKeepsOffsets(Start(), es);
    var s := Run(true, Start(), es);
    var s1 := Step(s, Begin);
    if s.offsets.pending != map[] {
      var tp :| tp in s.offsets.pending;
      NothingAround(s);
      forall h | h in s.queue ensures h.FindCoordinator? { assert Alive(s.queue, s.inFlight, h); }
      assert s.inFlight.Some? ==> Alive(s.queue, s.inFlight, s.inFlight.value);
      LookupsStray(s1, s.offsets.pending, tp);
    } else {
      StepKeepsInvariant(s, Begin);
      BeginKeepsOffsets(s);
      forall es1 | ValidRun(true, s1, es1) && NoBegin(es1) ensures !Strays(Run(true, s1, es1)) {
        RunKeepsOffsets(s1, es1);
        RunKeepsStale(s1, es1);
      }
    }
  }

  /** Offsets stay pending after a transaction that was aborted before they were committed. */
  lemma AbortedOffsetsStayPending()
    ensures exists s :: Reachable(true, s) && s.phase == Ready && s.offsets.pending == FIVE && CanStray(Step(s, Begin))
  {
    WithOffsetIsReachable();
    var s0 := WithOffset();
    var s1 := s0.(phase := AbortableError);
    Reach(true, s0, Trouble(false), s1);
    var s2 := s1.(queue := [], undone := 0);
    Reach(true, s1, Next, s2);
    AbortEnds(s2);
    var s5 := s2.(phase := Ready, started := false, offsetsAdded := false);
    var es :| ValidRun(true, Start(), es) && Run(true, Start(), es) == s5;
    StaleOffsetsStray(es);
    assert P in FIVE;
  }

  lemma AbortEnds(s2: Txn)
    requires Reachable(true, s2) && s2 == WithOffset().(phase := AbortableError, queue := [], undone := 0)
    ensures Reachable(true, s2.(phase := Ready, started := false, offsetsAdded := false))
  {
    var s3 := s2.(phase := AbortingTransaction, undone := 1, queue := [EndTxn(false)]);
    AbortStep(s2);
    Reach(true, s2, Abort, s3);
    var s4 := s3.(queue := [], inFlight := Some(EndTxn(false)));
    NextReleases(s3);
    Reach(true, s3, Next, s4);
    EndedStep(s4, false);
    Reach(true, s4, Respond(Success), s2.(phase := Ready, started := false, offsetsAdded := false));
  }
}
