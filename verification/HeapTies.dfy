/**
 * What a tie in an in-flight heap does to a round. The heaps hold pairs of creation time and
 * batch; batches have no order, so a heap that compares two entries with the same time raises.
 */
module HeapTies {
  import opened Common
  import opened ProducerModel
  import opened ProducerInvariants
  import opened ProducerRuns
  import opened ProducerDrain

  /** Some other batch of the partition of i among these was created at the same time. */
  predicate TiesIn(bs: seq<Batch>, heap: set<nat>, i: nat) {
    exists j :: j in heap && j != i && j < |bs| && i < |bs| && bs[j].tp == bs[i].tp && bs[j].created == bs[i].created
  }

  /** No batch of a round ties with what is in flight when it is pushed. */
  ghost predicate NoTieIn(bs: seq<Batch>, heap: set<nat>, ids: seq<nat>) {
    forall k {:trigger TieAt(bs, heap, ids, k)} :: 0 <= k < |ids| ==> !TieAt(bs, heap, ids, k)
  }

  /** The k-th batch ties with what is in flight once the first k are pushed. */
  predicate TieAt(bs: seq<Batch>, heap: set<nat>, ids: seq<nat>, k: nat)
    requires k < |ids|
  {
    TiesIn(bs, heap + IdSet(ids[..k]), ids[k])
  }

  lemma NoTieMore(bs: seq<Batch>, heap: set<nat>, ids: seq<nat>, j: nat)
    requires j < |ids| && NoTieIn(bs, heap, ids[..j])
    ensures NoTieIn(bs, heap, ids[..j + 1]) <==> !TieAt(bs, heap, ids, j)
    ensures TieAt(bs, heap, ids, j) ==> !NoTieIn(bs, heap, ids)
  {
    var done, more := ids[..j], ids[..j + 1];
    forall m | 0 <= m < j ensures !TieAt(bs, heap, more, m) {
      assert !TieAt(bs, heap, done, m);
      assert more[..m] == done[..m] && done[m] == more[m];
    }
    assert more[..j] == done;
    assert TieAt(bs, heap, more, j) <==> TieAt(bs, heap, ids, j);
  }

  /** The batch is waited for and is in no deque, no heap and no request. */
  predicate Stranded(s: State, i: nat) {
    && i < |s.batches| && s.batches[i].final.None? && i in s.incomplete && !Queued(s, i)
    && i !in s.inFlight && i !in s.expired && i !in s.drained && i !in s.awaiting
  }

  /** The state a round leaves that drained ids and raised at the push of the k-th. */
  ghost predicate BrokenOff(s: State, ids: seq<nat>, k: nat, s1: State) {
    && k < |ids|
    && s1 == s.(batches := s1.batches, queues := s1.queues, sequences := s1.sequences,
                inFlight := s.inFlight + IdSet(ids[..k + 1]))
    && forall m :: k < m < |ids| ==> Stranded(s1, ids[m])
  }

  lemma StrandedIsNotConserved(s: State, i: nat)
    requires Stranded(s, i) && s.expired == {}
    ensures !Conserved(s)
  {
    assert i in s.incomplete && i !in QueuedBatches(s) + s.inFlight;
  }

  /** A round takes batches that wait in deques. */
  lemma {:induction false} RoundTakesQueued(c: Config, s: State, orders: seq<seq<TopicPartition>>,
          stop: TopicPartition -> bool, maxSize: nat, now: int)
    requires OrdersOk(orders) && forall tp: TopicPartition :: QueueOk(s, tp)
    ensures forall i :: i in Concat(DrainOrders(c, s, orders, stop, maxSize, now).lists) ==>
              i < |s.batches| && Queued(s, i)
  {
    if orders != [] {
      var n := |orders| - 1;
      OrdersPrefix(orders, n);
      RoundTakesQueued(c, s, orders[..n], stop, maxSize, now);
      RoundTakesHeads(c, s, orders[..n], stop, maxSize, now);
      var r := DrainOrders(c, s, orders[..n], stop, maxSize, now);
      var d := Drained(r.state, [], 0);
      DrainTakesHeads(c, d, orders[n], stop, maxSize, now);
      var ready := DrainNode(c, d, orders[n], stop, maxSize, now).ready;
      assert ready[0..] == ready && (r.lists + [ready])[..|r.lists|] == r.lists;
      forall i | i in ready ensures i < |s.batches| && Queued(s, i) {
        var k :| 0 <= k < |ready| && ready[k] == i;
        assert !Visited(orders[..n], s.batches[i].tp);
      }
    }
  }

  /**
   * The rest of the round is stranded: whatever round a reachable producer drains, if the push
   * of its k-th batch raises, the later ones are in no deque and no heap and stay incomplete.
   */
  lemma TieStrands(c: Config, s: State, orders: seq<seq<TopicPartition>>, stop: TopicPartition -> bool, maxSize: nat,
          now: int, k: nat)
    requires ReachableState(c, s) && s.expired == {} && !s.resetDue && OrdersOk(orders)
    requires k < |Concat(DrainOrders(c, s, orders, stop, maxSize, now).lists)|
    ensures var r := DrainOrders(c, s, orders, stop, maxSize, now);
            var ids := Concat(r.lists);
            var s1 := r.state.(inFlight := s.inFlight + IdSet(ids[..k + 1]));
            BrokenOff(s, ids, k, s1) && (k + 1 < |ids| ==> !Conserved(s1))
  {
    ReachableKeepsInvariant(c, s);
    var r := DrainOrders(c, s, orders, stop, maxSize, now);
    var ids := Concat(r.lists);
    var s1 := r.state.(inFlight := s.inFlight + IdSet(ids[..k + 1]));
    RoundTakesQueued(c, s, orders, stop, maxSize, now);
    RoundKeepsRest(c, s, orders, stop, maxSize, now);
    RoundTakesHeads(c, s, orders, stop, maxSize, now);
    RoundApart(c, s, orders, stop, maxSize, now);
    RoundIsRun(c, s, orders, stop, maxSize, now);
    RunKeepsInvariant(c, s, RoundEvents(c, s, orders, stop, maxSize, now));
    var g := Register(c, r.state, ids);
    forall m | k < m < |ids| ensures Stranded(s1, ids[m]) {
      assert ids[m] in ids && ids[m] in g.drained && BatchOk(s, ids[m]) && BatchOk(g, ids[m]);
      assert ids[m] !in ids[..k + 1];
    }
    if k + 1 < |ids| { StrandedIsNotConserved(s1, ids[k + 1]); }
  }

  /** The round was cut short by a tie. */
  ghost predicate CutShort(s: State, ids: seq<nat>, s1: State) {
    exists k: nat :: BrokenOff(s, ids, k, s1) && TieAt(s.batches, s.inFlight, ids, k)
  }

  lemma SameTies(s: State, s1: State, heap: set<nat>, i: nat)
    requires SameBirth(s, s1)
    ensures TiesIn(s1.batches, heap, i) <==> TiesIn(s.batches, heap, i)
  {
  }

  lemma NoTieSame(s: State, s1: State, heap: set<nat>, ids: seq<nat>)
    requires SameBirth(s, s1)
    ensures NoTieIn(s1.batches, heap, ids) <==> NoTieIn(s.batches, heap, ids)
  {
    forall k | 0 <= k < |ids| ensures TieAt(s1.batches, heap, ids, k) <==> TieAt(s.batches, heap, ids, k) {
      SameTies(s, s1, heap + IdSet(ids[..k]), ids[k]);
    }
  }

  /** What a tie in a round of a reachable producer leads to; under guaranteed order there is none. */
  lemma TieCutsShort(c: Config, s: State, orders: seq<seq<TopicPartition>>, stop: TopicPartition -> bool, maxSize: nat,
          now: int, k: nat)
    requires ReachableState(c, s) && s.expired == {} && !s.resetDue && OrdersOk(orders)
    requires var r := DrainOrders(c, s, orders, stop, maxSize, now);
             k < |Concat(r.lists)| && TieAt(r.state.batches, s.inFlight, Concat(r.lists), k)
    ensures var r := DrainOrders(c, s, orders, stop, maxSize, now);
            var ids := Concat(r.lists);
            CutShort(s, ids, r.state.(inFlight := s.inFlight + IdSet(ids[..k + 1])))
    ensures !c.guaranteeMessageOrder
  {
    var r := DrainOrders(c, s, orders, stop, maxSize, now);
    var ids := Concat(r.lists);
    ReachableKeepsInvariant(c, s);
    TieStrands(c, s, orders, stop, maxSize, now, k);
    RoundKeepsRest(c, s, orders, stop, maxSize, now);
    SameTies(s, r.state, s.inFlight + IdSet(ids[..k]), ids[k]);
    RoundIsRun(c, s, orders, stop, maxSize, now);
    RunKeepsInvariant(c, s, RoundEvents(c, s, orders, stop, maxSize, now));
    TieInRound(r.state, s.inFlight, ids, k, Register(c, r.state, ids));
    if c.guaranteeMessageOrder { NothingTies(Register(c, r.state, ids)); }
  }

  lemma TieInRound(s: State, heap: set<nat>, ids: seq<nat>, k: nat, g: State)
    requires k < |ids| && TieAt(s.batches, heap, ids, k) && g.batches == s.batches
    requires g.inFlight == heap + IdSet(ids)
    ensures Tie(g)
  {
    var j :| j in heap + IdSet(ids[..k]) && j != ids[k] && j < |s.batches| && ids[k] < |s.batches|
             && s.batches[j].tp == s.batches[ids[k]].tp && s.batches[j].created == s.batches[ids[k]].created;
    assert j in ids[..k] ==> j in ids;
    assert ids[k] in ids;
    assert Tied(g, j, ids[k]);
  }

  /** Without ties to begin with, and none met while pushing, there are none afterwards. */
  lemma NoTieComes(s: State, s1: State, ids: seq<nat>)
    requires !Tie(s) && |s1.batches| == |s.batches| && SameBirth(s, s1) && Apart(s.batches, ids)
    requires NoTieIn(s1.batches, s.inFlight, ids) && s1.inFlight == s.inFlight + IdSet(ids)
    ensures !Tie(s1)
  {
    forall i: nat, j: nat ensures !Tied(s1, i, j) {
      if Tied(s1, i, j) {
        assert !Tied(s, i, j);
        if i in s.inFlight && j in s.inFlight {
          assert false;
        } else if i in s.inFlight {
          MetBefore(s, s1, ids, i, j);
        } else {
          if j in s.inFlight { MetBefore(s, s1, ids, j, i); }
        }
      }
    }
  }

  lemma MetBefore(s: State, s1: State, ids: seq<nat>, i: nat, j: nat)
    requires i in s.inFlight && j in ids && i != j && Tied(s1, i, j)
    ensures !NoTieIn(s1.batches, s.inFlight, ids)
  {
    var k :| 0 <= k < |ids| && ids[k] == j;
    assert TieAt(s1.batches, s.inFlight, ids, k);
  }

  // ----- such a round ------------------------------------------------------------------

  const A := TopicPartition("t", 0)
  const B := TopicPartition("t", 1)
  const PIPELINED := Config(false, false, None, 100, 0, 120000, 16384)

  function Created(tp: TopicPartition, closed: bool): Batch {
    Batch(tp, 0, [1], 10, 10, closed, false, 0, 0, None, None)
  }

  /** The next state of a run. */
  lemma Reach(s: State, e: Event) returns (s1: State)
    requires ReachableState(PIPELINED, s) && Enabled(PIPELINED, s, e) && !e.Compare?
    ensures Step(PIPELINED, s, e) == Returns(s1) && ReachableState(PIPELINED, s1)
  {
    assert ValidRun(PIPELINED, s, []) && Run(PIPELINED, s, []) == Returns(s);
    OneMoreStep(PIPELINED, s, [], s, e);
    s1 := Step(PIPELINED, s, e).value;
  }

  /** The deques of the two partitions, and nothing else under way. */
  ghost predicate Waiting(s: State, a: seq<nat>, b: seq<nat>) {
    Queue(s, A) == a && Queue(s, B) == b && s.muted == {} && s.expired == {} && !s.resetDue
  }

  /** A batch of its own for each record. */
  lemma AppendsBatch(s: State, tp: TopicPartition) returns (s1: State)
    requires ReachableState(PIPELINED, s) && forall i :: 0 <= i < |s.batches| ==> s.batches[i].created == 0
    ensures ReachableState(PIPELINED, s1) && s1.batches == s.batches + [Created(tp, false)]
    ensures Queue(s1, tp) == Queue(s, tp) + [|s.batches|] && forall t :: t != tp ==> Queue(s1, t) == Queue(s, t)
    ensures s1 == s.(batches := s1.batches, queues := s1.queues, incomplete := s1.incomplete, user := s1.user)
  {
    s1 := Reach(s, Append(tp, 1, 10, 10, false, 0));
  }

  /** Two batches of A and one of B, all appended at time 0. */
  lemma FilledIsReachable() returns (s: State)
    ensures ReachableState(PIPELINED, s) && Waiting(s, [0, 1], [2]) && s.inFlight == s.drained == {}
    ensures s.batches == [Created(A, false), Created(A, false), Created(B, false)]
  {
    assert ValidRun(PIPELINED, Initial(), []) && Run(PIPELINED, Initial(), []) == Returns(Initial());
    var s1 := AppendsBatch(Initial(), A);
    var s2 := AppendsBatch(s1, A);
    assert s2.batches == [Created(A, false), Created(A, false)] && Waiting(s2, [0, 1], []);
    s := AppendsBatch(s2, B);
  }

  /** The first batch of A is sent. */
  lemma FirstSentIsReachable() returns (s: State)
    ensures ReachableState(PIPELINED, s) && Waiting(s, [1], [2]) && s.inFlight == {0}
    ensures s.batches == [Created(A, true), Created(A, false), Created(B, false)]
  {
    var s0 := FilledIsReachable();
    var s1 := Reach(s0, Drain(A, 0));
    assert s1.batches == [Created(A, true), Created(A, false), Created(B, false)] && Waiting(s1, [1], [2]);
    s := Reach(s1, Send(0));
  }

  /** The next round takes the heads of both deques. */
  lemma RoundTakesBoth(s: State)
    requires Waiting(s, [1], [2]) && s.batches == [Created(A, true), Created(A, false), Created(B, false)]
    ensures Concat(DrainOrders(PIPELINED, s, [[A, B]], GO, 1000, 0).lists) == [1, 2]
  {
    var d0 := Drained(s, [], 0);
    var d1 := Take(PIPELINED, d0, A, 0);
    var d2 := Take(PIPELINED, d1, B, 0);
    assert [A, B][1..] == [B] && [B][1..] == [];
    assert DrainNode(PIPELINED, d2, [], GO, 1000, 0) == d2;
    assert DrainNode(PIPELINED, d1, [B], GO, 1000, 0) == d2;
    assert DrainNode(PIPELINED, d0, [A, B], GO, 1000, 0) == d2 && d2.ready == [1, 2];
    assert [[A, B]][..0] == [] && DrainOrders(PIPELINED, s, [], GO, 1000, 0) == Round(s, []);
    assert DrainOrders(PIPELINED, s, [[A, B]], GO, 1000, 0).lists == [[1, 2]];
    assert [[1, 2]][..0] == [] && Concat([[1, 2]]) == Concat([]) + [1, 2];
  }

  const GO: TopicPartition -> bool := _ => false

  /**
   * A tie is met under the default configuration, and conservation ends: the second batch of A,
   * created with the first, which is in flight, is drained together with the batch of B. The
   * push onto the heap of A has one entry to compare with; it raises, and the batch of B is
   * left in no deque and no heap.
   */
  lemma TieIsReachable()
    ensures exists s :: ReachableState(PIPELINED, s) && MeetsTie(s)
  {
    var s := FirstSentIsReachable();
    RoundTakesBoth(s);
    ReachableKeepsInvariant(PIPELINED, s);
    RoundKeepsRest(PIPELINED, s, [[A, B]], GO, 1000, 0);
    TieStrands(PIPELINED, s, [[A, B]], GO, 1000, 0, 0);
    TiesNow(s, DrainOrders(PIPELINED, s, [[A, B]], GO, 1000, 0).state, [1, 2]);
  }

  /** A round of two batches raises at the push of the first. */
  ghost predicate MeetsTie(s: State) {
    var r := DrainOrders(PIPELINED, s, [[A, B]], GO, 1000, 0);
    Concat(r.lists) == [1, 2] && s.inFlight == {0} && BreaksOff(s, r.state)
  }

  ghost predicate BreaksOff(s: State, s0: State) {
    var s1 := s0.(inFlight := s.inFlight + {1});
    TiesIn(s.batches, s.inFlight, 1) && Tied(s1, 0, 1) && Stranded(s1, 2) && !Conserved(s1)
  }

  lemma TiesNow(s: State, s0: State, ids: seq<nat>)
    requires ids == [1, 2] && s.inFlight == {0} && SameBirth(s, s0)
    requires s.batches == [Created(A, true), Created(A, false), Created(B, false)]
    requires var s1 := s0.(inFlight := s.inFlight + IdSet(ids[..0 + 1]));
             BrokenOff(s, ids, 0, s1) && (0 + 1 < |ids| ==> !Conserved(s1))
    ensures BreaksOff(s, s0)
  {
    assert ids[..1] == [1] && IdSet([1]) == {1} && ids[1] == 2;
    assert 0 in s.inFlight;
  }
}
