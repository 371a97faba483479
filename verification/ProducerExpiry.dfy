/** The two expiry scans and the failing of what they find, as runs of the pipeline. */
module ProducerExpiry {
  import opened Common
  import opened ProducerModel
  import opened ProducerInvariants
  import opened ProducerRuns
  import opened ProducerDrain

  /** s1 is s after expiry steps es that took out the batches `expired`. */
  ghost predicate Expiring(c: Config, s: State, es: seq<Event>, s1: State, expired: seq<nat>) {
    && ValidRun(c, s, es) && Run(c, s, es) == Returns(s1)
    && InRange(s1)
    && s1.expired == s.expired + IdSet(expired) && Distinct(expired)
    && s1 == s.(batches := s1.batches, queues := s1.queues, inFlight := s1.inFlight, expired := s1.expired,
                resetDue := s1.resetDue)
    && (s1.resetDue <==> s.resetDue || (c.idempotent && AnyResent(s.batches, expired)))
    && |s1.batches| == |s.batches|
    && (forall i :: 0 <= i < |s.batches| ==> s1.batches[i] == s.batches[i].(closed := s1.batches[i].closed))
  }

  /** Some of the batches were sent before. */
  predicate AnyResent(bs: seq<Batch>, ids: seq<nat>) {
    exists k :: 0 <= k < |ids| && ids[k] < |bs| && bs[ids[k]].inRetry
  }

  lemma OneMoreResent(bs: seq<Batch>, ids: seq<nat>, i: nat)
    requires i < |bs|
    ensures AnyResent(bs, ids + [i]) <==> AnyResent(bs, ids) || bs[i].inRetry
  {
    if AnyResent(bs, ids) {
      var k :| 0 <= k < |ids| && ids[k] < |bs| && bs[ids[k]].inRetry;
      assert (ids + [i])[k] == ids[k];
    }
    if bs[i].inRetry { assert (ids + [i])[|ids|] == i; }
  }

  /** Some expiry steps from s took out the batches `expired`. */
  ghost predicate TakenOut(c: Config, s: State, s1: State, expired: seq<nat>) {
    exists es :: Expiring(c, s, es, s1, expired)
  }

  lemma StartExpiring(c: Config, s: State)
    requires ReachableState(c, s)
    ensures TakenOut(c, s, s, [])
  {
    ReachableKeepsInvariant(c, s);
    assert IdSet([]) == {} && s.expired + {} == s.expired;
    assert Expiring(c, s, [], s, []);
  }

  lemma TakenOutIsOk(c: Config, s: State, s1: State, expired: seq<nat>)
    requires ReachableState(c, s) && TakenOut(c, s, s1, expired)
    ensures InRange(s1) && |s1.batches| == |s.batches| && forall tp: TopicPartition :: QueueOk(s1, tp)
  {
    var es :| Expiring(c, s, es, s1, expired);
    ReachableKeepsInvariant(c, s);
    RunKeepsInvariant(c, s, es);
  }

  lemma QueuedExpires(c: Config, s: State, s1: State, expired: seq<nat>, tp: TopicPartition, now: int)
    requires ReachableState(c, s) && TakenOut(c, s, s1, expired) && Enabled(c, s1, ExpireQueued(tp, now))
    ensures var i := Queue(s1, tp)[0];
            TakenOut(c, s, s1.(queues := s1.queues[tp := Queue(s1, tp)[1..]], expired := s1.expired + {i},
                               batches := s1.batches[i := s1.batches[i].(closed := true)],
                               resetDue := ResetDue(c, s1, i)), expired + [i])
  {
    var es :| Expiring(c, s, es, s1, expired);
    var e, i := ExpireQueued(tp, now), Queue(s1, tp)[0];
    ReachableKeepsInvariant(c, s);
    RunOneMore(c, s, es, s1, e);
    assert QueueOk(s1, tp) && i in Queue(s1, tp) && BatchOk(s1, i);
    assert i !in s1.expired && i !in IdSet(expired);
    assert IdSet(expired + [i]) == IdSet(expired) + {i};
    OneMoreResent(s.batches, expired, i);
    assert Expiring(c, s, es + [e], Step(c, s1, e).value, expired + [i]);
  }

  /** A batch found in a heap is not final, so the scan raises nothing. */
  lemma InFlightExpires(c: Config, s: State, s1: State, expired: seq<nat>, i: nat, now: int)
    requires ReachableState(c, s) && TakenOut(c, s, s1, expired) && Enabled(c, s1, ExpireInFlight(i, now))
    ensures s1.batches[i].final.None?
    ensures TakenOut(c, s, s1.(inFlight := s1.inFlight - {i}, expired := s1.expired + {i},
                               resetDue := ResetDue(c, s1, i)), expired + [i])
  {
    var es :| Expiring(c, s, es, s1, expired);
    var e := ExpireInFlight(i, now);
    ReachableKeepsInvariant(c, s);
    RunOneMore(c, s, es, s1, e);
    assert BatchOk(s1, i);
    assert IdSet(expired + [i]) == IdSet(expired) + {i};
    OneMoreResent(s.batches, expired, i);
    assert Expiring(c, s, es + [e], Step(c, s1, e).value, expired + [i]);
  }

  // ----- the next expiry time ----------------------------------------------------------

  /** The next expiry time (None: infinity) is no later than the deadline of a batch created then. */
  predicate Covers(c: Config, next: Option<int>, created: int) {
    next.Some? && next.value <= created + c.deliveryTimeout
  }

  predicate Earlier(next': Option<int>, next: Option<int>) {
    next.Some? ==> next'.Some? && next'.value <= next.value
  }

  /** The deque is empty, or its head is live and covered. */
  ghost predicate Scanned(c: Config, s: State, next: Option<int>, tp: TopicPartition, now: int) {
    Queue(s, tp) != [] && Queue(s, tp)[0] < |s.batches| ==>
      !s.batches[Queue(s, tp)[0]].Expired(c.deliveryTimeout, now) && Covers(c, next, s.batches[Queue(s, tp)[0]].created)
  }

  ghost predicate AllScanned(c: Config, s: State, next: Option<int>, now: int) {
    forall tp: TopicPartition :: Scanned(c, s, next, tp, now)
  }

  /** Every in-flight batch of the given partitions is live and covered. */
  ghost predicate HeapsScanned(c: Config, s: State, next: Option<int>, tps: iset<TopicPartition>, now: int) {
    forall i :: i in s.inFlight && i < |s.batches| && s.batches[i].tp in tps ==>
      !s.batches[i].Expired(c.deliveryTimeout, now) && Covers(c, next, s.batches[i].created)
  }

  ghost const EVERYWHERE: iset<TopicPartition> := iset tp: TopicPartition | true

  /** All partitions but these. */
  ghost function AllBut(todo: set<TopicPartition>): iset<TopicPartition> {
    iset tp: TopicPartition | tp !in todo
  }

  lemma OneLess(todo: set<TopicPartition>, tp: TopicPartition)
    requires tp in todo
    ensures AllBut(todo - {tp}) == AllBut(todo) + iset{tp} && tp !in AllBut(todo)
    ensures todo - {tp} == {} ==> AllBut(todo - {tp}) == EVERYWHERE
  {
  }

  /** Everything still live is unexpired, and the sender wakes before the first of it expires. */
  ghost predicate Timely(c: Config, s: State, next: Option<int>, now: int, later: int) {
    AllScanned(c, s, next, now) && HeapsScanned(c, s, next, EVERYWHERE, later) && Attained(c, s, next)
  }

  /** The next expiry time is the deadline of batch i. */
  predicate DueAt(c: Config, s: State, next: Option<int>, i: nat) {
    i < |s.batches| && next == Some(s.batches[i].created + c.deliveryTimeout)
  }

  /** The next expiry time is the deadline of some deque's head. */
  ghost predicate DueAtHead(c: Config, s: State, next: Option<int>) {
    exists tp: TopicPartition :: Queue(s, tp) != [] && DueAt(c, s, next, Queue(s, tp)[0])
  }

  ghost predicate DueInHeap(c: Config, s: State, next: Option<int>) {
    exists i :: i in s.inFlight && DueAt(c, s, next, i)
  }

  /** The next expiry time is infinite or the deadline of a batch that waits or is in flight. */
  ghost predicate Attained(c: Config, s: State, next: Option<int>) {
    next.None? || DueAtHead(c, s, next) || DueInHeap(c, s, next)
  }

  lemma AttainedStays(c: Config, s: State, s': State, next: Option<int>)
    requires Attained(c, s, next) && s'.queues == s.queues && s'.inFlight == s.inFlight && SameCreation(s, s')
    ensures Attained(c, s', next)
  {
    if DueAtHead(c, s, next) {
      var tp: TopicPartition :| Queue(s, tp) != [] && DueAt(c, s, next, Queue(s, tp)[0]);
      assert Queue(s', tp) == Queue(s, tp) && DueAt(c, s', next, Queue(s', tp)[0]);
    } else if DueInHeap(c, s, next) {
      var i :| i in s.inFlight && DueAt(c, s, next, i);
      assert DueAt(c, s', next, i);
    }
  }

  /** The in-flight batches of one partition. */
  function HeapOf(s: State, tp: TopicPartition): set<nat> {
    set i | i in s.inFlight && i < |s.batches| && s.batches[i].tp == tp
  }

  lemma OldestCoversHeap(c: Config, s: State, next: Option<int>, tp: TopicPartition, i: nat, now: int)
    requires i < |s.batches| && !s.batches[i].Expired(c.deliveryTimeout, now) && Covers(c, next, s.batches[i].created)
    requires forall j :: j in HeapOf(s, tp) ==> j < |s.batches| && s.batches[i].created <= s.batches[j].created
    ensures HeapsScanned(c, s, next, iset{tp}, now)
  {
  }

  lemma OneHeapMore(c: Config, s: State, s': State, next: Option<int>, next': Option<int>, tps: iset<TopicPartition>,
          tp: TopicPartition, now: int)
    requires HeapsScanned(c, s, next, tps, now) && HeapsScanned(c, s', next', iset{tp}, now) && Earlier(next', next)
    requires s'.batches == s.batches && s'.inFlight <= s.inFlight
    ensures HeapsScanned(c, s', next', tps + iset{tp}, now)
  {
  }

  /** The next expiry time is the deadline of an in-flight batch of the partition. */
  ghost predicate DueInHeapOf(c: Config, s: State, tp: TopicPartition, next: Option<int>) {
    exists i :: i in HeapOf(s, tp) && DueAt(c, s, next, i)
  }

  /** The next expiry time is as it was, or the deadline of an in-flight batch of a scanned partition. */
  ghost predicate DueInScanned(c: Config, s: State, scanned: iset<TopicPartition>, was: Option<int>,
          next: Option<int>) {
    next == was || exists t: TopicPartition :: t in scanned && DueInHeapOf(c, s, t, next)
  }

  lemma DueIsDue(c: Config, s: State, scanned: iset<TopicPartition>, was: Option<int>, next: Option<int>)
    requires DueInScanned(c, s, scanned, was, next)
    ensures next == was || DueInHeap(c, s, next)
  {
    if next != was {
      var t: TopicPartition :| t in scanned && DueInHeapOf(c, s, t, next);
      var i :| i in HeapOf(s, t) && DueAt(c, s, next, i);
    }
  }

  lemma OneHeapDue(c: Config, s: State, s': State, scanned: iset<TopicPartition>, tp: TopicPartition, was: Option<int>,
          next: Option<int>,
          next': Option<int>)
    requires DueInScanned(c, s, scanned, was, next) && tp !in scanned && s'.batches == s.batches
    requires forall t: TopicPartition :: t != tp ==> HeapOf(s', t) == HeapOf(s, t)
    requires next' == next || DueInHeapOf(c, s', tp, next')
    ensures DueInScanned(c, s', scanned + iset{tp}, was, next')
  {
    if next' != next {
      assert tp in scanned + iset{tp};
    } else if next != was {
      var t: TopicPartition :| t in scanned && DueInHeapOf(c, s, t, next);
      var i :| i in HeapOf(s, t) && DueAt(c, s, next, i);
      assert i in HeapOf(s', t) && DueAt(c, s', next, i) && t in scanned + iset{tp};
    }
  }

  lemma NoHeapElsewhere(c: Config, s: State, next: Option<int>, todo: set<TopicPartition>, now: int)
    requires forall i :: i in s.inFlight && i < |s.batches| ==> s.batches[i].tp in todo
    ensures HeapsScanned(c, s, next, AllBut(todo), now)
    ensures todo == {} ==> HeapsScanned(c, s, next, EVERYWHERE, now)
  {
  }

  lemma EmptyHeapIsScanned(c: Config, s: State, next: Option<int>, tp: TopicPartition, now: int)
    requires HeapOf(s, tp) == {}
    ensures HeapsScanned(c, s, next, iset{tp}, now)
  {
    forall j | j in s.inFlight && j < |s.batches| ensures s.batches[j].tp != tp { assert j !in HeapOf(s, tp); }
  }

  /** Only what the scan of the deques changes is changed. */
  predicate QueuesScanned(s: State, s': State) {
    s' == s.(batches := s'.batches, queues := s'.queues, expired := s'.expired, resetDue := s'.resetDue)
  }

  /** Only what the scan of the heaps changes is changed. */
  predicate HeapsPopped(s: State, s': State) {
    && s' == s.(inFlight := s'.inFlight, expired := s'.expired, resetDue := s'.resetDue)
    && s'.inFlight <= s.inFlight
  }

  /** The batches are the same objects, created when they were. */
  ghost predicate SameCreation(s: State, s': State) {
    |s'.batches| == |s.batches| && forall i :: 0 <= i < |s.batches| ==> s'.batches[i].created == s.batches[i].created
  }

  lemma StaysScanned(c: Config, s: State, s': State, next: Option<int>, next': Option<int>, tp: TopicPartition,
          now: int)
    requires Scanned(c, s, next, tp, now) && Earlier(next', next) && Queue(s', tp) == Queue(s, tp)
    requires SameCreation(s, s')
    ensures Scanned(c, s', next', tp, now)
  {
  }

  lemma ScannedStays(c: Config, s: State, s': State, next: Option<int>, next': Option<int>, now: int)
    requires AllScanned(c, s, next, now) && Earlier(next', next) && s'.queues == s.queues && SameCreation(s, s')
    ensures AllScanned(c, s', next', now)
  {
    forall tp: TopicPartition ensures Scanned(c, s', next', tp, now) { assert Scanned(c, s, next, tp, now); }
  }

  /** Failing what was found leaves the live batches as they are. */
  lemma FailingStaysTimely(c: Config, s1: State, es: seq<Event>, s2: State, expired: seq<nat>, next: Option<int>,
          now: int, later: int)
    requires Failing(c, s1, es, s2, expired, |expired|) && Timely(c, s1, next, now, later)
    ensures Timely(c, s2, next, now, later)
  {
    ScannedStays(c, s1, s2, next, next, now);
    AttainedStays(c, s1, s2, next);
  }

  /** Under guaranteed order a timely state has no expired live batch, and no deadline before the next expiry time. */
  lemma TimelyIsComplete(c: Config, s: State, next: Option<int>, now: int, later: int, i: nat)
    requires c.guaranteeMessageOrder && ReachableState(c, s) && Timely(c, s, next, now, later) && s.expired == {}
    requires now <= later
    requires i in s.incomplete
    ensures i < |s.batches| && !s.batches[i].Expired(c.deliveryTimeout, now) && Covers(c, next, s.batches[i].created)
  {
    ReachableKeepsInvariant(c, s);
    assert BatchOk(s, i);
    var tp := s.batches[i].tp;
    if i in s.inFlight {
      assert tp in EVERYWHERE;
    } else {
      assert QueueOk(s, tp) && Scanned(c, s, next, tp, now);
      HeadExpiresFirst(c, s, tp, now, i);
    }
  }

  /**
   * The next expiry time is the earliest deadline of the incomplete batches, and infinite
   * exactly if there are none.
   */
  lemma NextExpiryIsEarliest(c: Config, s: State, next: Option<int>, now: int, later: int)
    requires c.guaranteeMessageOrder && ReachableState(c, s) && Timely(c, s, next, now, later)
    requires s.expired == {} && now <= later
    ensures next.None? <==> s.incomplete == {}
    ensures forall i :: i in s.incomplete ==> i < |s.batches| && Covers(c, next, s.batches[i].created)
    ensures next.Some? ==> exists i :: i in s.incomplete && DueAt(c, s, next, i)
  {
    ReachableKeepsInvariant(c, s);
    forall i | i in s.incomplete ensures i < |s.batches| && Covers(c, next, s.batches[i].created) {
      TimelyIsComplete(c, s, next, now, later, i);
    }
    if DueAtHead(c, s, next) {
      var tp: TopicPartition :| Queue(s, tp) != [] && DueAt(c, s, next, Queue(s, tp)[0]);
      var i := Queue(s, tp)[0];
      assert QueueOk(s, tp) && i in Queue(s, tp) && BatchOk(s, i);
    } else if DueInHeap(c, s, next) {
      var i :| i in s.inFlight && DueAt(c, s, next, i);
      assert BatchOk(s, i);
    }
  }

  /**
   * A deque sorted by creation, whose head has not expired, holds no expired batch, and its
   * head's deadline is the first.
   */
  lemma HeadExpiresFirst(c: Config, s: State, tp: TopicPartition, now: int, i: nat)
    requires c.guaranteeMessageOrder && Invariant(c, s) && i in Queue(s, tp)
    requires Queue(s, tp)[0] < |s.batches| && !s.batches[Queue(s, tp)[0]].Expired(c.deliveryTimeout, now)
    ensures i < |s.batches| && !s.batches[i].Expired(c.deliveryTimeout, now)
    ensures s.batches[Queue(s, tp)[0]].created <= s.batches[i].created
  {
    assert QueueOk(s, tp) && Increasing(Queue(s, tp));
    var k :| 0 <= k < |Queue(s, tp)| && Queue(s, tp)[k] == i;
    if k > 0 { assert Queue(s, tp)[0] < Queue(s, tp)[k]; }
  }

  /** s2 is s1 after failing the first k of the batches an expiry scan took out. */
  ghost predicate Failing(c: Config, s1: State, es: seq<Event>, s2: State, expired: seq<nat>, k: nat)
    requires k <= |expired|
  {
    && ValidRun(c, s1, es) && Run(c, s1, es) == Returns(s2)
    && s2.expired == IdSet(expired[k..])
    && s2 == s1.(batches := s2.batches, incomplete := s2.incomplete, expired := s2.expired, completed := s2.completed,
         inFlight := s2.inFlight)
    && s2.inFlight == s1.inFlight
    && |s2.batches| == |s1.batches|
    && (forall i :: 0 <= i < |s1.batches| ==> s2.batches[i] == s1.batches[i].(final := s2.batches[i].final))
    && s2.completed == s1.completed + expired[..k]
  }

  lemma StartFailing(c: Config, s1: State, expired: seq<nat>)
    requires s1.expired == IdSet(expired)
    ensures Failing(c, s1, [], s1, expired, 0)
  {
    assert expired[0..] == expired;
  }

  /** The next expired batch fails: its future is completed now, and only now. */
  lemma ExpiredFails(c: Config, s1: State, es: seq<Event>, s2: State, expired: seq<nat>, k: nat)
    requires ReachableState(c, s1) && Distinct(expired) && k < |expired| && Failing(c, s1, es, s2, expired, k)
    ensures var e, i := FailExpired(expired[k]), expired[k];
            && i < |s2.batches| && s2.batches[i].final.None? && Enabled(c, s2, e) && Step(c, s2, e).Returns?
            && Failing(c, s1, es + [e], Step(c, s2, e).value, expired, k + 1)
            && Step(c, s2, e).value ==
                 s2.(batches := s2.batches[i := s2.batches[i].(final := Some(Failed))],
                     incomplete := s2.incomplete - {i}, expired := s2.expired - {i}, completed := s2.completed + [i])
  {
    var e, i := FailExpired(expired[k]), expired[k];
    ReachableKeepsInvariant(c, s1);
    RunKeepsInvariant(c, s1, es);
    assert expired[k..][0] == i;
    assert i in s2.expired;
    assert BatchOk(s2, i);
    RunOneMore(c, s1, es, s2, e);
    OneIdMoves(expired, k);
    assert s2.inFlight - {i} == s2.inFlight;
  }

  /** Every produce future completed on the way from s to s2 is one of an expired batch. */
  ghost predicate FailsOnlyExpired(c: Config, s: State, s2: State, now: int) {
    && s.completed <= s2.completed
    && forall k :: |s.completed| <= k < |s2.completed| ==>
         s2.completed[k] < |s.batches| && s.batches[s2.completed[k]].Expired(c.deliveryTimeout, now)
  }

  lemma FailingFailsFound(c: Config, s: State, es: seq<Event>, s1: State, fs: seq<Event>, s2: State, found: seq<nat>,
          now: int)
    requires Expiring(c, s, es, s1, found) && Failing(c, s1, fs, s2, found, |found|)
    requires forall i :: i in found ==> i < |s.batches| && s.batches[i].Expired(c.deliveryTimeout, now)
    ensures FailsOnlyExpired(c, s, s2, now)
  {
    assert found[..|found|] == found;
    forall k | |s.completed| <= k < |s2.completed|
      ensures s2.completed[k] < |s.batches| && s.batches[s2.completed[k]].Expired(c.deliveryTimeout, now)
    {
      assert s2.completed[k] == found[k - |s.completed|];
      assert found[k - |s.completed|] in found;
    }
  }

  lemma TakenOutMarks(c: Config, s: State, s1: State, expired: seq<nat>)
    requires TakenOut(c, s, s1, expired)
    ensures s1.expired == s.expired + IdSet(expired)
    ensures s1.resetDue <==> s.resetDue || (c.idempotent && AnyResent(s.batches, expired))
  {
  }

  /** Some batch completed on the way from s to s1 had been sent before. */
  ghost predicate ResentCompleted(s: State, s1: State) {
    exists k :: |s.completed| <= k < |s1.completed| && s1.completed[k] < |s.batches|
      && s.batches[s1.completed[k]].inRetry
  }

  lemma ResentAmongCompleted(s: State, s1: State, found: seq<nat>)
    requires s1.completed == s.completed + found
    ensures ResentCompleted(s, s1) <==> AnyResent(s.batches, found)
  {
    if AnyResent(s.batches, found) {
      var k :| 0 <= k < |found| && found[k] < |s.batches| && s.batches[found[k]].inRetry;
      assert s1.completed[|s.completed| + k] == found[k];
    }
    if ResentCompleted(s, s1) {
      var k :| |s.completed| <= k < |s1.completed| && s1.completed[k] < |s.batches|
        && s.batches[s1.completed[k]].inRetry;
      assert found[k - |s.completed|] == s1.completed[k];
    }
  }

  /** The batches found are failed: a run, after which a reset is due exactly if one of them had been sent before. */
  lemma FoundAreFailed(c: Config, s: State, es: seq<Event>, s1: State, fs: seq<Event>, s2: State, found: seq<nat>)
    requires ReachableState(c, s) && s.expired == {} && !s.resetDue
    requires Expiring(c, s, es, s1, found) && Failing(c, s1, fs, s2, found, |found|)
    ensures ValidRun(c, s, es + fs) && Run(c, s, es + fs) == Returns(s2)
    ensures s2.expired == {} && s2.drained == s.drained && s2.sends == s.sends
    ensures AnyResent(s1.batches, found) <==> ResentCompleted(s, s2)
    ensures s2.resetDue <==> c.idempotent && ResentCompleted(s, s2)
  {
    assert found[|found|..] == [] && found[..|found|] == found;
    ResentAmongCompleted(s, s2, found);
    ReachableKeepsInvariant(c, s);
    RunAppend(c, s, es, fs);
  }

  /** Requests handed over for the first k of the drained batches. */
  ghost predicate Sending(c: Config, s: State, es: seq<Event>, s2: State, ids: seq<nat>, k: nat)
    requires k <= |ids|
  {
    && ValidRun(c, s, es) && Run(c, s, es) == Returns(s2)
    && s2.drained == IdSet(ids[k..]) && s2.awaiting == s.awaiting + IdSet(ids[..k]) && s2.sends == s.sends + ids[..k]
    && s2 == s.(drained := s2.drained, awaiting := s2.awaiting, sends := s2.sends)
  }

  lemma StartSending(c: Config, s: State, ids: seq<nat>)
    requires s.drained == IdSet(ids)
    ensures Sending(c, s, [], s, ids, 0)
  {
    assert ids[0..] == ids && IdSet(ids[..0]) == {} && s.awaiting + {} == s.awaiting && s.sends + [] == s.sends;
  }

  lemma OneMoreSent(c: Config, s: State, es: seq<Event>, s2: State, ids: seq<nat>, k: nat)
    requires ReachableState(c, s) && !s.resetDue && Distinct(ids) && k < |ids| && Sending(c, s, es, s2, ids, k)
    ensures var e := Send(ids[k]);
            && Enabled(c, s2, e) && Step(c, s2, e).Returns?
            && Sending(c, s, es + [e], Step(c, s2, e).value, ids, k + 1)
  {
    var e := Send(ids[k]);
    ReachableKeepsInvariant(c, s);
    RunKeepsInvariant(c, s, es);
    assert ids[k..][0] == ids[k];
    assert ids[k] in s2.drained;
    RunOneMore(c, s, es, s2, e);
    OneIdMoves(ids, k);
  }

  lemma OneIdMoves(ids: seq<nat>, k: nat)
    requires Distinct(ids) && k < |ids|
    ensures ids[..k + 1] == ids[..k] + [ids[k]]
    ensures IdSet(ids[k + 1..]) == IdSet(ids[k..]) - {ids[k]} && IdSet(ids[..k + 1]) == IdSet(ids[..k]) + {ids[k]}
  {
    assert ids[k..] == [ids[k]] + ids[k + 1..] && ids[..k + 1] == ids[..k] + [ids[k]];
  }
}
