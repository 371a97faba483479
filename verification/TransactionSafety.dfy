/** What every step of the transaction manager keeps, and commit safety over whole runs. */
module TransactionSafety {
  import opened Common
  import opened Transactions

  // ----- the queue ---------------------------------------------------------------------

  ghost predicate Sorted(q: seq<Handler>) {
    forall i, j :: 0 <= i < j < |q| ==> q[i].Priority() <= q[j].Priority()
  }

  /** Handlers that hold a result of the user's, and handlers of which only one can be around. */
  datatype Kind = Awaited | Sole
  {
    predicate Holds(h: Handler) {
      match this
      case Awaited => h.Awaited()
      case Sole => h.InitProducerId? || h.EndTxn?
    }
  }

  function One(k: Kind, h: Handler): nat { if k.Holds(h) then 1 else 0 }

  function Count(k: Kind, q: seq<Handler>): nat {
    if q == [] then 0 else One(k, q[0]) + Count(k, q[1..])
  }

  lemma {:induction false} EnqueueAdds(q: seq<Handler>, h: Handler)
    ensures forall x :: x in Enqueue(q, h) <==> x in q || x == h
    ensures forall k :: Count(k, Enqueue(q, h)) == Count(k, q) + One(k, h)
  {
    if q != [] && q[0].Priority() <= h.Priority() {
      EnqueueAdds(q[1..], h);
      assert q == [q[0]] + q[1..];
      assert Enqueue(q, h)[1..] == Enqueue(q[1..], h);
    } else {
      assert Enqueue(q, h)[1..] == q;
    }
  }

  lemma HeadFirst(q: seq<Handler>, x: Handler)
    requires Sorted(q) && q != [] && x in q
    ensures q[0].Priority() <= x.Priority()
  {
    var k :| 0 <= k < |q| && q[k] == x;
    if k > 0 { assert q[0].Priority() <= q[k].Priority(); }
  }

  /** Pushing keeps the order and adds exactly the handler. */
  lemma {:induction false} EnqueueKeepsOrder(q: seq<Handler>, h: Handler)
    requires Sorted(q)
    ensures Sorted(Enqueue(q, h))
    ensures forall x :: x in Enqueue(q, h) <==> x in q || x == h
    ensures forall k :: Count(k, Enqueue(q, h)) == Count(k, q) + One(k, h)
  {
    EnqueueAdds(q, h);
    if q != [] && q[0].Priority() <= h.Priority() {
      EnqueueKeepsOrder(q[1..], h);
      var r := Enqueue(q[1..], h);
      forall x | x in r ensures q[0].Priority() <= x.Priority() {
        if x != h {
          assert x in q;
          HeadFirst(q, x);
        }
      }
      ConsSorted(q[0], r);
    } else {
      forall x | x in q ensures h.Priority() <= x.Priority() { HeadFirst(q, x); }
      ConsSorted(h, q);
    }
  }

  lemma ConsSorted(h: Handler, q: seq<Handler>)
    requires Sorted(q) && forall x :: x in q ==> h.Priority() <= x.Priority()
    ensures Sorted([h] + q)
  {
    forall i, j | 0 <= i < j < |[h] + q| ensures ([h] + q)[i].Priority() <= ([h] + q)[j].Priority() {
      assert q[j - 1] in q;
    }
  }

  lemma PopKeepsOrder(q: seq<Handler>)
    requires Sorted(q) && q != []
    ensures Sorted(q[1..]) && forall k :: Count(k, q) == Count(k, q[1..]) + One(k, q[0])
    ensures forall x :: x in q <==> x == q[0] || x in q[1..]
    ensures forall x :: x in q[1..] ==> q[0].Priority() <= x.Priority()
  {
    assert q == [q[0]] + q[1..];
    forall x | x in q[1..] ensures q[0].Priority() <= x.Priority() {
      var i :| 0 <= i < |q[1..]| && q[1..][i] == x;
      assert q[i + 1] == x;
    }
  }

  lemma {:induction false} IsCounted(k: Kind, q: seq<Handler>, h: Handler)
    requires h in q && k.Holds(h)
    ensures Count(k, q) >= 1
  {
    if q[0] != h {
      assert q == [q[0]] + q[1..];
      IsCounted(k, q[1..], h);
    }
  }

  lemma {:induction false} NoneCounted(k: Kind, q: seq<Handler>)
    requires forall h :: h in q ==> !k.Holds(h)
    ensures Count(k, q) == 0
  {
    if q != [] {
      assert q[0] in q;
      NoneCounted(k, q[1..]);
    }
  }

  // ----- the invariant -----------------------------------------------------------------

  /** The handler is queued or in flight. */
  predicate Alive(q: seq<Handler>, f: Option<Handler>, h: Handler) {
    h in q || f == Some(h)
  }

  /** How many handlers of the kind are around. */
  function Around(k: Kind, q: seq<Handler>, f: Option<Handler>): nat {
    Count(k, q) + if f.Some? then One(k, f.value) else 0
  }

  predicate Active(p: Phase) {
    p == InTransaction || p == CommittingTransaction
  }

  /** The transaction goes on, and every error was handled. */
  predicate Intact(s: Txn) {
    Active(s.phase) && !s.unhandled
  }

  predicate Between(p: Phase) {
    p == Uninitialized || p == Initializing || p == Ready
  }

  /** The phases in which a handler can be around. */
  predicate InPlace(p: Phase, named: set<TopicPartition>, h: Handler) {
    match h
    case FindCoordinator => true
    case InitProducerId => p == Initializing || p == FatalError
    case AddPartitions(tps) => tps <= named && !Between(p)
    case AddOffsets(_) => !Between(p)
    case OffsetCommit(_) => !Between(p)
    case EndTxn(true) => p == CommittingTransaction || p == AbortableError || p == FatalError
    case EndTxn(false) => p == AbortingTransaction || p == FatalError
  }

  /** Some AddPartitions handler will report on the partition. */
  ghost predicate Covered(q: seq<Handler>, f: Option<Handler>, tp: TopicPartition) {
    exists h :: Alive(q, f, h) && h.AddPartitions? && tp in h.tps
  }

  ghost predicate AllInPlace(p: Phase, named: set<TopicPartition>, q: seq<Handler>, f: Option<Handler>) {
    forall h {:trigger Alive(q, f, h)} :: Alive(q, f, h) ==> InPlace(p, named, h)
  }

  /** No handler holds a result that is done, and there is one way at most to begin or to end. */
  ghost predicate Line(q: seq<Handler>, f: Option<Handler>, undone: int) {
    && Sorted(q) && Around(Awaited, q, f) <= undone && Around(Sole, q, f) <= 1
    && (f.Some? && f.value.EndTxn? ==> q == [])
  }

  ghost predicate Handlers(s: Txn) {
    && Line(s.queue, s.inFlight, s.undone)
    && AllInPlace(s.phase, s.named, s.queue, s.inFlight)
  }

  ghost predicate AllCovered(pending: set<TopicPartition>, q: seq<Handler>, f: Option<Handler>) {
    forall tp :: tp in pending ==> Covered(q, f, tp)
  }

  ghost predicate Sets(s: Txn) {
    && s.newPartitions <= s.named && s.pendingPartitions <= s.named && s.partitions <= s.named
    && (Intact(s) ==> s.named == s.newPartitions + s.pendingPartitions + s.partitions)
    && (Intact(s) ==> AllCovered(s.pendingPartitions, s.queue, s.inFlight))
    && (s.phase == CommittingTransaction ==> s.newPartitions == {})
    && (s.partitions != {} || s.offsetsAdded ==> s.started)
    && (Between(s.phase) ==>
          s.newPartitions == {} && s.pendingPartitions == {} && s.partitions == {} && !s.started && !s.offsetsAdded)
  }

  ghost predicate Batches(s: Txn) {
    && (Between(s.phase) || (s.inFlight.Some? && s.inFlight.value.EndTxn?) ==> s.incomplete == multiset{})
    && (s.failed ==> s.phase == AbortableError || s.phase == AbortingTransaction || s.phase == FatalError)
    && s.produced <= s.partitions
    && (Active(s.phase) ==> forall tp :: tp in s.named ==> tp in s.produced || tp in s.incomplete)
  }

  ghost predicate Invariant(s: Txn) {
    Handlers(s) && Sets(s) && Batches(s)
  }

  // ----- pieces of steps ---------------------------------------------------------------

  /** Pushing a handler that is in place, with a result of its own, and alone of its kind. */
  lemma PushKeeps(s: Txn, h: Handler)
    requires Handlers(s) && InPlace(s.phase, s.named, h)
    requires Around(Awaited, s.queue, s.inFlight) + One(Awaited, h) <= s.undone
    requires Around(Sole, s.queue, s.inFlight) + One(Sole, h) <= 1
    requires s.inFlight.Some? ==> !s.inFlight.value.EndTxn?
    ensures Handlers(Push(s, h))
    ensures forall x :: Alive(Push(s, h).queue, s.inFlight, x) <==> Alive(s.queue, s.inFlight, x) || x == h
    ensures forall k :: Around(k, Push(s, h).queue, s.inFlight) == Around(k, s.queue, s.inFlight) + One(k, h)
  {
    EnqueueKeepsOrder(s.queue, h);
    var q := Enqueue(s.queue, h);
    assert forall x :: Alive(q, s.inFlight, x) <==> Alive(s.queue, s.inFlight, x) || x == h;
  }

  /** Pending partitions stay covered when no AddPartitions handler goes. */
  lemma StaysCovered(pending: set<TopicPartition>, q: seq<Handler>, f: Option<Handler>, q1: seq<Handler>,
          f1: Option<Handler>)
    requires AllCovered(pending, q, f)
    requires forall h :: Alive(q, f, h) && h.AddPartitions? ==> Alive(q1, f1, h)
    ensures AllCovered(pending, q1, f1)
  {
    forall tp | tp in pending ensures Covered(q1, f1, tp) {
      var h :| Alive(q, f, h) && h.AddPartitions? && tp in h.tps;
      assert Alive(q1, f1, h);
    }
  }

  lemma AddNewKeeps(s: Txn)
    requires Handlers(s) && Sets(s)
    requires s.inFlight.Some? ==> !s.inFlight.value.EndTxn?
    ensures var s1 := AddNewPartitions(s);
            Handlers(s1) && Sets(s1) && s1.newPartitions == {} && forall k ::
              Around(k, s1.queue, s1.inFlight) == Around(k, s.queue, s.inFlight)
  {
    if s.newPartitions != {} {
      var all := s.pendingPartitions + s.newPartitions;
      var s1 := s.(pendingPartitions := all, newPartitions := {});
      PushKeeps(s1, AddPartitions(all));
      var s2 := Push(s1, AddPartitions(all));
      assert Alive(s2.queue, s2.inFlight, AddPartitions(all));
      forall tp | tp in all ensures Covered(s2.queue, s2.inFlight, tp) {}
    }
  }

  /** Before the first and between two transactions only coordinator lookups are around. */
  lemma NothingAround(s: Txn)
    requires Handlers(s) && (s.phase == Uninitialized || s.phase == Ready)
    ensures (forall h :: Alive(s.queue, s.inFlight, h) ==> h.FindCoordinator?) && Around(Sole, s.queue, s.inFlight) == 0
  {
    forall h | Alive(s.queue, s.inFlight, h) ensures h.FindCoordinator? { assert InPlace(s.phase, s.named, h); }
    NothingSole(s);
  }

  /** No handler around begins or ends anything. */
  lemma NothingSole(s: Txn)
    requires forall h :: Alive(s.queue, s.inFlight, h) ==> !Sole.Holds(h)
    ensures Around(Sole, s.queue, s.inFlight) == 0
  {
    forall h | h in s.queue ensures !Sole.Holds(h) { assert Alive(s.queue, s.inFlight, h); }
    NoneCounted(Sole, s.queue);
    assert s.inFlight.Some? ==> Alive(s.queue, s.inFlight, s.inFlight.value);
  }

  /** Within a transaction, and after an error in it once no commit is pending, no EndTxn is around. */
  lemma NoEndAround(s: Txn)
    requires Handlers(s) && (s.phase == InTransaction || (s.phase == AbortableError && !CommitPending(s)))
    ensures Around(Sole, s.queue, s.inFlight) == 0
    ensures s.inFlight.Some? ==> !s.inFlight.value.EndTxn?
  {
    forall h | Alive(s.queue, s.inFlight, h) ensures !Sole.Holds(h) { assert InPlace(s.phase, s.named, h); }
    NothingSole(s);
    assert s.inFlight.Some? ==> Alive(s.queue, s.inFlight, s.inFlight.value);
  }

  // ----- what single steps do ----------------------------------------------------------

  /** The phases in which a call of the user is accepted. */
  predicate Accepts(p: Phase, e: Event) {
    match e
    case Init => p == Uninitialized
    case Begin => p == Ready
    case Abort => p == InTransaction || p == AbortableError
    case _ => p == InTransaction
  }

  /** A call in any other phase raises and changes nothing. */
  lemma CallIsRefused(s: Txn, e: Event)
    requires e.Init? || e.Begin? || e.SendRecord? || e.SendOffsetsToTransaction? || e.Commit? || e.Abort?
    requires !Accepts(s.phase, e)
    ensures Step(s, e) == s
  {
  }

  lemma InitStep(s: Txn)
    requires s.phase == Uninitialized
    ensures Step(s, Init) == Push(s.(phase := Initializing, undone := s.undone + 1), InitProducerId)
  {
  }

  lemma SendOffsetsStep(s: Txn, o: Offsets)
    requires s.phase == InTransaction
    ensures var asked := s.offsets.asked + Items(o);
            Step(s, SendOffsetsToTransaction(o)) ==
              Push(s.(undone := s.undone + 1, offsets := s.offsets.(asked := asked)), AddOffsets(o))
  {
  }

  /** What asking for the next request does once new partitions have been taken up. */
  predicate Proceeds(s: Txn, s1: Txn) {
    if s.queue == [] || (s.queue[0].EndTxn? && s.incomplete != multiset{}) then s1 == s
    else if Terminated(s, s.queue[0]) then s1 == Finish(s.(queue := s.queue[1..]), s.queue[0])
    else if s.queue[0].EndTxn? && !s.started then
      s1 == if SkipEndTxn(s).Returns? then SkipEndTxn(s).value else Finish(s.(queue := s.queue[1..]), s.queue[0])
    else s1 == Release(s)
  }

  lemma NextProceeds(s: Txn)
    ensures Proceeds(AddNewPartitions(s), Step(s, Next))
  {
  }

  /** A request that is not an EndTxn is let out. */
  lemma NextReleases(s: Txn)
    requires s.newPartitions == {} && s.queue != [] && !HasError(s)
    requires s.queue[0].EndTxn? ==> s.incomplete == multiset{} && s.started
    ensures Step(s, Next) == s.(queue := s.queue[1..], inFlight := Some(s.queue[0]))
  {
  }

  /** Steps of the batches leave the requests alone. */
  lemma BatchStep(s: Txn, e: Event)
    requires e.Produce? || e.BatchAcked? || e.BatchFailed? || e.BatchDropped? || e.Trouble?
    ensures var s1 := Step(s, e);
            && s1.queue == s.queue && s1.inFlight == s.inFlight && s1.offsets == s.offsets && s1.started == s.started
            && (Active(s1.phase) ==> Active(s.phase))
  {
    if e.BatchFailed? || e.Trouble? {
      FailStep(s, e.fatal);
      if e.BatchFailed? { BatchFailedStep(s, e.tp, e.fatal); }
    }
  }

  lemma FailStep(s: Txn, fatal: bool)
    ensures Step(s, Trouble(fatal)) == if Fail(s, fatal).Returns? then Fail(s, fatal).value else s
    ensures Fail(s, fatal).Returns? ==>
            Fail(s, fatal).value == s.(phase := Fail(s, fatal).value.phase) && !Active(Fail(s, fatal).value.phase)
  {
  }

  lemma AddedOffsetsStep(s: Txn, o: Offsets)
    requires s.inFlight == Some(AddOffsets(o))
    ensures var all := s.offsets.pending + o;
            var s1 := s.(inFlight := None, started := true, offsetsAdded := true,
                         offsets := s.offsets.(pending := all));
            Step(s, Respond(Success)) == Push(s1, OffsetCommit(all))
  {
  }

  lemma TryAgainStep(s: Txn, lookup: bool)
    requires s.inFlight.Some?
    ensures var s0 := s.(inFlight := None);
            Step(s, Respond(TryAgain(lookup))) ==
              Push(if lookup then Push(s0, FindCoordinator) else s0, s.inFlight.value)
  {
  }

  lemma InitializedStep(s: Txn)
    requires s.inFlight == Some(InitProducerId)
    ensures Step(s, Respond(Success)) ==
            if TransitionValid(s.phase, Ready) then s.(inFlight := None, phase := Ready, undone := s.undone - 1)
            else Stranded(s)
  {
  }

  lemma AddedStep(s: Txn, tps: set<TopicPartition>)
    requires s.inFlight == Some(AddPartitions(tps))
    ensures Step(s, Respond(Success)) ==
            s.(inFlight := None, pendingPartitions := s.pendingPartitions - tps, partitions := s.partitions + tps,
               started := true)
  {
  }

  lemma FatalStep(s: Txn)
    requires s.inFlight.Some?
    ensures Step(s, Respond(Fatal)) == Finish(s.(inFlight := None, phase := FatalError), s.inFlight.value)
  {
  }

  lemma UnhandledStep(s: Txn, abortable: bool)
    requires s.inFlight.Some?
    ensures var s1 := Step(s, Respond(Unhandled(abortable)));
            s1 == Stranded(s).(unhandled := true, pendingPartitions := s1.pendingPartitions)
  {
  }

  lemma EndedStep(s: Txn, committed: bool)
    requires s.inFlight == Some(EndTxn(committed)) && TransitionValid(s.phase, Ready)
    ensures Step(s, Respond(Success)) ==
            s.(inFlight := None, phase := Ready, started := false, newPartitions := {}, pendingPartitions := {},
               partitions := {}, produced := {}, offsetsAdded := false, failed := false, undone := s.undone - 1)
  {
  }

  lemma EndRaises(s: Txn, committed: bool)
    requires s.inFlight == Some(EndTxn(committed)) && !TransitionValid(s.phase, Ready)
    ensures Step(s, Respond(Success)) == Stranded(s)
  {
  }

  // ----- calls of the user -------------------------------------------------------------

  lemma InitKeeps(s: Txn)
    requires Invariant(s) && s.phase == Uninitialized
    ensures Invariant(Step(s, Init))
  {
    NothingAround(s);
    var s1 := s.(phase := Initializing, undone := s.undone + 1);
    assert AllInPlace(s1.phase, s1.named, s1.queue, s1.inFlight);
    assert s.inFlight.Some? ==> Alive(s.queue, s.inFlight, s.inFlight.value);
    PushKeeps(s1, InitProducerId);
    InitStep(s);
  }

  lemma BeginKeeps(s: Txn)
    requires Invariant(s) && s.phase == Ready
    ensures Invariant(Step(s, Begin))
  {
    NothingAround(s);
  }

  lemma SendKeeps(s: Txn, tp: TopicPartition)
    requires Invariant(s) && s.phase == InTransaction
    ensures Invariant(Step(s, SendRecord(tp)))
  {
    var known := tp in s.partitions || tp in s.newPartitions || tp in s.pendingPartitions;
    var s1 := s.(named := s.named + {tp}, newPartitions := if known then s.newPartitions else s.newPartitions + {tp});
    assert AllInPlace(s1.phase, s1.named, s1.queue, s1.inFlight);
    assert s.inFlight.Some? ==> Alive(s.queue, s.inFlight, s.inFlight.value);
    assert Step(s, SendRecord(tp)) == s1.(incomplete := s.incomplete + multiset{tp});
    NamedGrows(s, s1, tp, known);
  }

  lemma NamedGrows(s: Txn, s1: Txn, tp: TopicPartition, known: bool)
    requires Sets(s) && s.phase == InTransaction
    requires (known <==> tp in s.partitions || tp in s.newPartitions || tp in s.pendingPartitions)
    requires s1 == s.(named := s.named + {tp}, newPartitions := if known then s.newPartitions
             else s.newPartitions + {tp})
    ensures Sets(s1)
  {
  }

  lemma SendOffsetsKeeps(s: Txn, o: Offsets)
    requires Invariant(s) && s.phase == InTransaction
    ensures Invariant(Step(s, SendOffsetsToTransaction(o)))
  {
    NoEndAround(s);
    var s1 := s.(undone := s.undone + 1, offsets := s.offsets.(asked := s.offsets.asked + Items(o)));
    PushKeeps(s1, AddOffsets(o));
    var s2 := Push(s1, AddOffsets(o));
    if Intact(s) { StaysCovered(s.pendingPartitions, s.queue, s.inFlight, s2.queue, s2.inFlight); }
    SendOffsetsStep(s, o);
  }

  lemma CommitKeeps(s: Txn)
    requires Invariant(s) && s.phase == InTransaction
    ensures Invariant(Step(s, Commit))
  {
    NoEndAround(s);
    AddNewKeeps(s);
    CommitPushes(AddNewPartitions(s));
    CommitStep(s);
  }

  lemma CommitStep(s: Txn)
    requires s.phase == InTransaction
    ensures Step(s, Commit) ==
            Push(AddNewPartitions(s).(phase := CommittingTransaction, undone := s.undone + 1), EndTxn(true))
  {
    var s1 := s.(phase := CommittingTransaction, undone := s.undone + 1);
    AddNewCommutes(s, CommittingTransaction, s.undone + 1);
    assert BeginCommit(s) == Returns(Push(AddNewPartitions(s1), EndTxn(true)));
  }

  lemma AddNewCommutes(s: Txn, p: Phase, undone: int)
    ensures AddNewPartitions(s.(phase := p, undone := undone)) == AddNewPartitions(s).(phase := p, undone := undone)
  {
  }

  lemma CommitPushes(s: Txn)
    requires Handlers(s) && Sets(s) && s.phase == InTransaction && s.newPartitions == {}
    ensures var s1 := Push(s.(phase := CommittingTransaction, undone := s.undone + 1), EndTxn(true));
            Handlers(s1) && Sets(s1)
  {
    NoEndAround(s);
    var s1 := s.(phase := CommittingTransaction, undone := s.undone + 1);
    forall h | Alive(s1.queue, s1.inFlight, h)
      ensures InPlace(s1.phase, s1.named, h)
    {
      assert InPlace(s.phase, s.named, h);
    }
    PushKeeps(s1, EndTxn(true));
    var s2 := Push(s1, EndTxn(true));
    if Intact(s) { StaysCovered(s.pendingPartitions, s.queue, s.inFlight, s2.queue, s2.inFlight); }
  }

  lemma AbortKeeps(s: Txn)
    requires Invariant(s) && (s.phase == InTransaction || s.phase == AbortableError) && !CommitPending(s)
    ensures Invariant(Step(s, Abort))
  {
    NoEndAround(s);
    var s1 := s.(phase := AbortingTransaction, undone := s.undone + 1, newPartitions := {});
    forall h | Alive(s1.queue, s1.inFlight, h)
      ensures InPlace(s1.phase, s1.named, h)
    {
      assert InPlace(s.phase, s.named, h);
    }
    PushKeeps(s1, EndTxn(false));
    AbortStep(s);
  }

  lemma AbortStep(s: Txn)
    requires s.phase == InTransaction || s.phase == AbortableError
    ensures BeginAbort(s).Returns?
    ensures Step(s, Abort) ==
            Push(s.(phase := AbortingTransaction, undone := s.undone + 1, newPartitions := {}), EndTxn(false))
  {
  }

  // ----- the sender --------------------------------------------------------------------

  /** An EndTxn at the head of the queue is all there is. */
  lemma EndTxnIsLast(s: Txn)
    requires Handlers(s) && s.queue != [] && s.queue[0].EndTxn?
    ensures s.queue == [s.queue[0]]
  {
    PopKeepsOrder(s.queue);
    AllCounted(s.queue[1..]);
  }

  lemma {:induction false} AllCounted(q: seq<Handler>)
    requires forall x :: x in q ==> x.EndTxn?
    ensures Count(Sole, q) == |q|
  {
    if q != [] {
      assert q[0] in q;
      AllCounted(q[1..]);
    }
  }

  lemma ReleaseKeeps(s: Txn)
    requires Invariant(s) && s.inFlight.None? && s.queue != [] && (s.queue[0].EndTxn? ==> s.incomplete == multiset{})
    ensures Invariant(Release(s))
  {
    var s1, h := Release(s), s.queue[0];
    PopKeepsOrder(s.queue);
    forall x ensures Alive(s1.queue, s1.inFlight, x) <==> Alive(s.queue, s.inFlight, x) {}
    if h.EndTxn? { EndTxnIsLast(s); }
    if Intact(s) { StaysCovered(s.pendingPartitions, s.queue, s.inFlight, s1.queue, s1.inFlight); }
  }

  /** In an error state the head of the queue is failed and dropped. */
  lemma TerminateKeeps(s: Txn)
    requires Invariant(s) && s.inFlight.None? && s.queue != [] && HasError(s)
    ensures Invariant(Finish(s.(queue := s.queue[1..]), s.queue[0]))
  {
    PopKeepsOrder(s.queue);
    var s1 := Finish(s.(queue := s.queue[1..]), s.queue[0]);
    forall x | Alive(s1.queue, s1.inFlight, x)
      ensures InPlace(s1.phase, s1.named, x)
    {
      assert Alive(s.queue, s.inFlight, x);
    }
  }

  /** A skipped EndTxn ends the transaction and leaves nothing in the queue. */
  lemma SkipKeeps(s: Txn)
    requires Invariant(s) && s.inFlight.None? && s.queue != [] && s.queue[0].EndTxn? && !HasError(s)
    requires s.incomplete == multiset{}
    ensures SkipEndTxn(s).Returns? && Invariant(SkipEndTxn(s).value)
    ensures SkipEndTxn(s).value.queue == [] && SkipEndTxn(s).value.inFlight.None?
  {
    EndTxnIsLast(s);
    assert Alive(s.queue, s.inFlight, s.queue[0]);
    assert s.queue[1..] == [];
  }

  /** Taking up new partitions changes nothing about the batches. */
  lemma AddNewInvariant(s: Txn)
    requires Invariant(s) && s.inFlight.None?
    ensures Invariant(AddNewPartitions(s)) && AddNewPartitions(s).inFlight.None?
  {
    AddNewKeeps(s);
  }

  lemma NextKeeps(s: Txn)
    requires Invariant(s) && s.inFlight.None?
    ensures NextRequest(s).Returns? && Invariant(NextRequest(s).value)
  {
    AddNewInvariant(s);
    var s1 := AddNewPartitions(s);
    if s1.queue != [] {
      var h := s1.queue[0];
      if h.EndTxn? && s1.incomplete != multiset{} {
      } else if Terminated(s1, h) {
        TerminateKeeps(s1);
      } else if h.EndTxn? && !s1.started {
        SkipKeeps(s1);
      } else {
        ReleaseKeeps(s1);
      }
    }
  }

  // ----- replies -----------------------------------------------------------------------

  /** The handler has left flight: what remains is in place, and its result is still to be done. */
  lemma Landed(s: Txn, h: Handler)
    requires Handlers(s) && s.inFlight == Some(h)
    ensures InPlace(s.phase, s.named, h) && Handlers(s.(inFlight := None))
    ensures Around(Awaited, s.queue, None) + One(Awaited, h) <= s.undone
    ensures Around(Sole, s.queue, None) + One(Sole, h) <= 1
    ensures forall x :: Alive(s.queue, None, x) ==> Alive(s.queue, s.inFlight, x)
    ensures forall x :: Alive(s.queue, s.inFlight, x) ==> Alive(s.queue, None, x) || x == h
  {
    assert Alive(s.queue, s.inFlight, h);
    forall x | Alive(s.queue, None, x) ensures InPlace(s.phase, s.named, x) { assert Alive(s.queue, s.inFlight, x); }
  }

  lemma TryAgainKeeps(s: Txn, h: Handler, lookup: bool)
    requires Invariant(s) && s.inFlight == Some(h)
    ensures Invariant(Step(s, Respond(TryAgain(lookup))))
  {
    Landed(s, h);
    TryAgainStep(s, lookup);
    var s0 := s.(inFlight := None);
    if lookup { PushKeeps(s0, FindCoordinator); }
    var s1 := if lookup then Push(s0, FindCoordinator) else s0;
    PushKeeps(s1, h);
    var s2 := Push(s1, h);
    if Intact(s) { StaysCovered(s.pendingPartitions, s.queue, s.inFlight, s2.queue, s2.inFlight); }
  }

  lemma FatalKeeps(s: Txn)
    requires Invariant(s)
    ensures Invariant(s.(phase := FatalError))
  {
    var s1 := s.(phase := FatalError);
    forall x | Alive(s1.queue, s1.inFlight, x)
      ensures InPlace(s1.phase, s1.named, x)
    {
      assert InPlace(s.phase, s.named, x);
    }
  }

  lemma AbortableKeeps(s: Txn)
    requires Invariant(s) && (s.phase == InTransaction || s.phase == CommittingTransaction || s.phase == AbortableError)
    ensures Invariant(s.(phase := AbortableError))
  {
    var s1 := s.(phase := AbortableError);
    forall x | Alive(s1.queue, s1.inFlight, x)
      ensures InPlace(s1.phase, s1.named, x)
    {
      assert InPlace(s.phase, s.named, x);
    }
  }

  /** A successful AddPartitions moves its partitions from pending to added. */
  lemma AddedKeeps(s: Txn, tps: set<TopicPartition>)
    requires Invariant(s) && s.inFlight == Some(AddPartitions(tps))
    ensures var s0 := s.(inFlight := None);
            Invariant(Succeed(s0, AddPartitions(tps)).value)
  {
    Landed(s, AddPartitions(tps));
    if Intact(s) { UncoveredWereAdded(s, tps); }
  }

  lemma UncoveredWereAdded(s: Txn, tps: set<TopicPartition>)
    requires AllCovered(s.pendingPartitions, s.queue, Some(AddPartitions(tps)))
    ensures AllCovered(s.pendingPartitions - tps, s.queue, None)
  {
    forall tp | tp in s.pendingPartitions - tps ensures Covered(s.queue, None, tp) {
      var h :| Alive(s.queue, Some(AddPartitions(tps)), h) && h.AddPartitions? && tp in h.tps;
      assert Alive(s.queue, None, h);
    }
  }

  lemma OffsetsAddedKeeps(s: Txn, o: Offsets)
    requires Invariant(s) && s.inFlight == Some(AddOffsets(o))
    ensures Invariant(Succeed(s.(inFlight := None), AddOffsets(o)).value)
  {
    Landed(s, AddOffsets(o));
    var all := s.offsets.pending + o;
    var s1 := s.(inFlight := None, started := true, offsetsAdded := true, offsets := s.offsets.(pending := all));
    PushKeeps(s1, OffsetCommit(all));
    var s2 := Push(s1, OffsetCommit(all));
    if Intact(s) { StaysCovered(s.pendingPartitions, s.queue, s.inFlight, s2.queue, s2.inFlight); }
  }

  /** The end of a transaction: nothing of it is left. */
  lemma EndedKeeps(s: Txn, h: Handler)
    requires Invariant(s) && s.inFlight == Some(h) && h.EndTxn?
    ensures Invariant(Step(s, Respond(Success)))
  {
    Landed(s, h);
    if TransitionValid(s.phase, Ready) {
      EndedStep(s, h.committed);
    } else {
      EndRaises(s, h.committed);
      LandedKeeps(s, h);
      AccountsAreApart(s.(inFlight := None), s.offsets, s.lost + 1);
    }
  }

  lemma SuccessKeeps(s: Txn, h: Handler)
    requires Invariant(s) && s.inFlight == Some(h)
    ensures Invariant(Step(s, Respond(Success)))
  {
    Landed(s, h);
    match h {
      case FindCoordinator => LandedKeeps(s, h);
      case InitProducerId => InitializedKeeps(s);
      case AddPartitions(tps) => AddedKeeps(s, tps);
      case AddOffsets(o) => OffsetsAddedKeeps(s, o);
      case OffsetCommit(_) => LandedKeeps(s, h);
      case EndTxn(_) => EndedKeeps(s, h);
    }
  }

  /** A handler that covers no pending partition leaves flight and its result is done. */
  lemma LandedKeeps(s: Txn, h: Handler)
    requires Invariant(s) && s.inFlight == Some(h) && (!h.AddPartitions? || !Intact(s))
    ensures Invariant(Finish(s.(inFlight := None), h)) && Invariant(s.(inFlight := None))
  {
    Landed(s, h);
    if Intact(s) { StaysCovered(s.pendingPartitions, s.queue, s.inFlight, s.queue, None); }
  }

  lemma InitializedKeeps(s: Txn)
    requires Invariant(s) && s.inFlight == Some(InitProducerId)
    ensures Invariant(Step(s, Respond(Success)))
  {
    Landed(s, InitProducerId);
    LandedKeeps(s, InitProducerId);
    var s1 := Finish(s.(inFlight := None), InitProducerId);
    if s.phase == Initializing {
      forall h | h in s.queue ensures h.FindCoordinator? {
        assert Alive(s.queue, s.inFlight, h);
        if h.InitProducerId? { IsCounted(Sole, s.queue, h); }
      }
      assert AllInPlace(Ready, s.named, s.queue, None);
      InitializedStep(s);
    } else {
      AccountsAreApart(s.(inFlight := None), s.offsets, s.lost + 1);
      InitializedStep(s);
    }
  }

  lemma ErrorKeeps(s: Txn, h: Handler, reply: Reply)
    requires Invariant(s) && s.inFlight == Some(h) && Answerable(h, reply) && (reply.Fatal? || reply.Abortable?)
    ensures Invariant(Step(s, Respond(reply)))
  {
    var e := Respond(reply);
    var s1 := s.(phase := FatalError);
    FatalKeeps(s);
    LandedKeeps(s1, h);
    if reply.Abortable? {
      AbortableReplyKeeps(s, h);
    }
  }

  lemma PendingShrinks(s: Txn, tps: set<TopicPartition>)
    requires Invariant(s) && !Active(s.phase)
    ensures Invariant(s.(pendingPartitions := s.pendingPartitions - tps))
  {
  }

  lemma AbortableReplyKeeps(s: Txn, h: Handler)
    requires Invariant(s) && s.inFlight == Some(h) && Answerable(h, Abortable)
    ensures Invariant(Step(s, Respond(Abortable)))
  {
    var p := if Active(s.phase) then AbortableError else s.phase;
    if Active(s.phase) { AbortableKeeps(s); }
    AbortedReply(s.(phase := p), h);
    AbortableReplyStep(s, h, p);
    var s2 := Step(s, Respond(Abortable));
    AccountsAreApart(s2.(lost := s.lost), s2.offsets, s2.lost);
  }

  lemma AbortedReply(s: Txn, h: Handler)
    requires Invariant(s) && s.inFlight == Some(h) && !Active(s.phase)
    ensures var s1 := s.(inFlight := None, pendingPartitions := if h.AddPartitions? then s.pendingPartitions - h.tps
            else s.pendingPartitions);
            Invariant(s1) && Invariant(Finish(s1, h))
  {
    LandedKeeps(s, h);
    if h.AddPartitions? { PendingShrinks(s.(inFlight := None), h.tps); }
  }

  lemma AbortableReplyStep(s: Txn, h: Handler, p: Phase)
    requires s.inFlight == Some(h) && p == if Active(s.phase) then AbortableError else s.phase
    ensures var pending := if h.AddPartitions? then s.pendingPartitions - h.tps else s.pendingPartitions;
            var s1 := s.(phase := p, inFlight := None, pendingPartitions := pending);
            var s2 := Step(s, Respond(Abortable));
            s2 == Finish(s1, h) || s2 == s1.(lost := Stranded(s).lost)
  {
  }

  /** The accounts of offsets and of lost results are kept apart. */
  lemma AccountsAreApart(s: Txn, o: OffsetCommits, lost: int)
    requires Invariant(s)
    ensures Invariant(s.(offsets := o, lost := lost))
  {
  }

  lemma ResultsKeep(s: Txn, h: Handler, rs: seq<(TopicPartition, bool)>)
    requires Invariant(s) && s.inFlight == Some(h) && h.OffsetCommit?
    ensures Invariant(Step(s, Respond(Results(rs))))
  {
    LandedKeeps(s, h);
    var s0 := s.(inFlight := None);
    var s1 := Recorded(s0, h.offsets, rs);
    AccountsAreApart(s0, s1.offsets, s.lost + 1);
    AccountsAreApart(Finish(s0, h), s1.offsets, s.lost);
    ResultsStep(s, h, rs);
  }

  lemma ResultsStep(s: Txn, h: Handler, rs: seq<(TopicPartition, bool)>)
    requires s.inFlight == Some(h) && h.OffsetCommit?
    ensures var o := Recorded(s, h.offsets, rs).offsets;
            Step(s, Respond(Results(rs))) ==
              if Clear(s.offsets.pending, rs).problem.Some? then s.(inFlight := None, lost := s.lost + 1, offsets := o)
              else s.(inFlight := None, undone := s.undone - 1, offsets := o)
  {
  }

  /** The handler is gone, and what it was to do is left as it is. */
  lemma UnhandledKeeps(s: Txn, h: Handler, abortable: bool)
    requires Invariant(s) && s.inFlight == Some(h)
    ensures Invariant(Step(s, Respond(Unhandled(abortable))))
  {
    Landed(s, h);
    UnhandledStep(s, abortable);
  }

  // ----- every step --------------------------------------------------------------------

  lemma BatchKeeps(s: Txn, e: Event)
    requires Invariant(s) && Enabled(true, s, e) && (e.Produce? || e.BatchAcked? || e.BatchDropped?)
    ensures Invariant(Step(s, e))
  {
  }

  lemma FailKeeps(s: Txn, e: Event)
    requires Invariant(s) && Enabled(true, s, e) && (e.BatchFailed? || e.Trouble?)
    ensures Invariant(Step(s, e))
  {
    if e.BatchFailed? {
      BatchFailureKeeps(s, e.tp, e.fatal);
    } else {
      FailMoves(s, e.fatal);
      FailStep(s, e.fatal);
    }
  }

  lemma BatchFailureKeeps(s: Txn, tp: TopicPartition, fatal: bool)
    requires Invariant(s)
    ensures Invariant(Step(s, BatchFailed(tp, fatal)))
  {
    FailMoves(s, fatal);
    BatchFailedStep(s, tp, fatal);
    if Fail(s, fatal).Returns? { BatchGone(Fail(s, fatal).value, tp); }
  }

  lemma BatchFailedStep(s: Txn, tp: TopicPartition, fatal: bool)
    ensures Step(s, BatchFailed(tp, fatal)) ==
              if Fail(s, fatal).Returns? then
                Fail(s, fatal).value.(failed := true, incomplete := s.incomplete - multiset{tp}) else s
  {
  }

  lemma FailMoves(s: Txn, fatal: bool)
    requires Invariant(s)
    ensures Fail(s, fatal).Returns? ==>
              var s1 := Fail(s, fatal).value;
              Invariant(s1) && (s1.phase == AbortableError || s1.phase == AbortingTransaction || s1.phase == FatalError)
  {
    FatalKeeps(s);
    if Active(s.phase) || s.phase == AbortableError { AbortableKeeps(s); }
  }

  lemma BatchGone(s: Txn, tp: TopicPartition)
    requires Invariant(s) && (s.phase == AbortableError || s.phase == AbortingTransaction || s.phase == FatalError)
    ensures Invariant(s.(failed := true, incomplete := s.incomplete - multiset{tp}))
  {
  }

  lemma CallKeeps(s: Txn, e: Event)
    requires Invariant(s) && Enabled(true, s, e)
    requires (e.Init? || e.Begin? || e.SendRecord? || e.SendOffsetsToTransaction? || e.Commit? || e.Abort?)
    ensures Invariant(Step(s, e))
  {
    if !Accepts(s.phase, e) {
      CallIsRefused(s, e);
    } else {
      match e {
        case Init => InitKeeps(s);
        case Begin => BeginKeeps(s);
        case SendRecord(tp) => SendKeeps(s, tp);
        case SendOffsetsToTransaction(o) => SendOffsetsKeeps(s, o);
        case Commit => CommitKeeps(s);
        case Abort =>
          AbortStep(s);
          AbortKeeps(s);
      }
    }
  }

  lemma ReplyKeeps(s: Txn, reply: Reply)
    requires Invariant(s) && Enabled(true, s, Respond(reply))
    ensures Invariant(Step(s, Respond(reply)))
  {
    var h := s.inFlight.value;
    match reply {
      case Success => SuccessKeeps(s, h);
      case TryAgain(lookup) => TryAgainKeeps(s, h, lookup);
      case Fatal => ErrorKeeps(s, h, reply);
      case Abortable => ErrorKeeps(s, h, reply);
      case Unhandled(abortable) => UnhandledKeeps(s, h, abortable);
      case Results(rs) => ResultsKeep(s, h, rs);
    }
  }

  lemma StepKeepsInvariant(s: Txn, e: Event)
    requires Invariant(s) && Enabled(true, s, e)
    ensures Invariant(Step(s, e))
  {
    if e.Next? {
      NextKeeps(s);
    } else if e.Respond? {
      ReplyKeeps(s, e.reply);
    } else if e.Produce? || e.BatchAcked? || e.BatchDropped? {
      BatchKeeps(s, e);
    } else if e.BatchFailed? || e.Trouble? {
      FailKeeps(s, e);
    } else {
      CallKeeps(s, e);
    }
  }

  lemma {:induction false} RunKeepsInvariant(s: Txn, es: seq<Event>)
    requires Invariant(s) && ValidRun(true, s, es)
    ensures Invariant(Run(true, s, es))
    decreases es
  {
    if es != [] {
      StepKeepsInvariant(s, es[0]);
      RunKeepsInvariant(Step(s, es[0]), es[1..]);
    }
  }

  lemma StartIsGood()
    ensures Invariant(Start())
  {
  }

  /** The phase moves only along the table of valid transitions, from any state at all. */
  lemma PhaseFollowsTable(s: Txn, e: Event)
    requires Fits(s, e)
    ensures Step(s, e).phase == s.phase || TransitionValid(s.phase, Step(s, e).phase)
  {
    match e {
      case Next => NextFollowsTable(s);
      case Respond(r) => ReplyFollowsTable(s.(inFlight := None), s.inFlight.value, r);
      case Init => CallFollowsTable(s, e);
      case Begin => CallFollowsTable(s, e);
      case SendRecord(_) => CallFollowsTable(s, e);
      case SendOffsetsToTransaction(_) => CallFollowsTable(s, e);
      case Commit => CallFollowsTable(s, e);
      case Abort => CallFollowsTable(s, e);
      case Produce(_) =>
      case BatchAcked(_) =>
      case BatchFailed(_, _) =>
      case BatchDropped(_) =>
      case Trouble(_) =>
    }
  }

  lemma CallFollowsTable(s: Txn, e: Event)
    requires e.Init? || e.Begin? || e.SendRecord? || e.SendOffsetsToTransaction? || e.Commit? || e.Abort?
    ensures Step(s, e).phase == s.phase || TransitionValid(s.phase, Step(s, e).phase)
  {
  }

  lemma NextFollowsTable(s: Txn)
    ensures NextRequest(s).Returns? ==>
            NextRequest(s).value.phase == s.phase || TransitionValid(s.phase, NextRequest(s).value.phase)
  {
    var s1 := AddNewPartitions(s);
    assert s1.phase == s.phase;
    if s1.queue != [] { SkipFollowsTable(s1); }
  }

  lemma SkipFollowsTable(s: Txn)
    requires s.queue != []
    ensures SkipEndTxn(s).Returns? ==>
            SkipEndTxn(s).value.phase == s.phase || TransitionValid(s.phase, SkipEndTxn(s).value.phase)
  {
  }

  lemma ReplyFollowsTable(s: Txn, h: Handler, r: Reply)
    requires r.Results? ==> h.OffsetCommit?
    ensures Complete(s, h, r).Returns? ==>
            Complete(s, h, r).value.phase == s.phase || TransitionValid(s.phase, Complete(s, h, r).value.phase)
  {
    match r {
      case Success => SuccessFollowsTable(s, h);
      case TryAgain(_) =>
      case Fatal =>
      case Abortable => AbortableFollowsTable(s, h);
      case Unhandled(_) =>
      case Results(_) =>
    }
  }

  lemma SuccessFollowsTable(s: Txn, h: Handler)
    ensures Succeed(s, h).Returns? ==>
            Succeed(s, h).value.phase == s.phase || TransitionValid(s.phase, Succeed(s, h).value.phase)
  {
  }

  lemma AbortableFollowsTable(s: Txn, h: Handler)
    ensures Complete(s, h, Abortable).Returns? ==>
            var p := Complete(s, h, Abortable).value.phase; p == s.phase || TransitionValid(s.phase, p)
  {
  }

  lemma ReleasedIsSafe(s: Txn)
    requires Invariant(s) && s.inFlight.None? && NextRequest(s).Returns? && Invariant(NextRequest(s).value)
    ensures var s1 := NextRequest(s).value;
            s1.inFlight == Some(EndTxn(true)) ==>
              && s1.phase == CommittingTransaction && s1.queue == [] && s1.incomplete == multiset{} && !s1.failed
              && s1.named == s1.partitions && s1.named <= s1.produced
  {
    var s1 := NextRequest(s).value;
    if s1.inFlight == Some(EndTxn(true)) {
      AddNewInvariant(s);
      NextProceeds(s);
      assert Step(s, Next) == s1;
      ReleasedIsHead(AddNewPartitions(s), s1);
      NamedWereAdded(s1);
    }
  }

  lemma ReleasedIsHead(s: Txn, s1: Txn)
    requires Invariant(s) && Invariant(s1) && s.inFlight.None? && Proceeds(s, s1) && s1.inFlight == Some(EndTxn(true))
    ensures s1.phase == CommittingTransaction && s1.queue == [] && s1.incomplete == multiset{} && !s1.failed
  {
    assert Alive(s1.queue, s1.inFlight, EndTxn(true));
    if s.queue[0].EndTxn? && !HasError(s) && !s.started && s.incomplete == multiset{} { SkipKeeps(s); }
  }

  /** With no batch incomplete, what the user sent to was produced to, and so had been added. */
  lemma NamedWereAdded(s: Txn)
    requires Sets(s) && Batches(s) && Active(s.phase) && s.incomplete == multiset{}
    ensures s.named == s.partitions && s.named <= s.produced
  {
  }
}
