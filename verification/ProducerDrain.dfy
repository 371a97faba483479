/**
 * RecordAccumulator.ready, drain_batches_for_one_node and drain: what the rotating drain
 * loop takes, and that it is a run of single drain steps of the pipeline.
 */
module ProducerDrain {
  import opened Common
  import opened ProducerModel
  import opened ProducerInvariants
  import opened ProducerRuns

  /** ready(): the partition's head batch is full, has waited long enough, or is forced out, and does not back off. */
  predicate ReadyToSend(c: Config, s: State, forced: bool, tp: TopicPartition, now: int) {
    && tp !in s.muted && Queue(s, tp) != [] && Queue(s, tp)[0] < |s.batches|
    && var b := s.batches[Queue(s, tp)[0]];
       && !b.BackingOff(c.retryBackoff, now)
       && (|Queue(s, tp)| > 1 || b.closed || b.openSize >= c.batchSize || now - b.lastAttempt >= c.linger || forced)
  }

  /** How long the head batch still has to wait before it can be sent. */
  function TimeLeft(c: Config, b: Batch, now: int): int {
    var wait := (if b.BackingOff(c.retryBackoff, now) then c.retryBackoff else c.linger) - (now - b.lastAttempt);
    if wait > 0 then wait else 0
  }

  /** Take the head of the deque: set the producer state unless it is a retry, and close it. */
  function PopHead(c: Config, s: State, tp: TopicPartition, now: int): State
    requires Drainable(c, s, tp, now) && MaySend(c, s)
  {
    var i := Queue(s, tp)[0];
    s.(batches := s.batches[i := Sealed(c, s, s.batches[i])],
       sequences := TouchSequence(c, s, s.batches[i]),
       queues := s.queues[tp := Queue(s, tp)[1..]])
  }

  datatype Drained = Drained(state: State, ready: seq<nat>, size: nat)

  /**
   * The loop takes this partition's head: it fits the request, or is the first, and nothing
   * says stop. `stop` is the answer of _should_stop_drain_batches_for_partition beyond MaySend.
   */
  predicate Takes(c: Config, d: Drained, tp: TopicPartition, stop: TopicPartition -> bool, maxSize: nat, now: int)
    requires Drainable(c, d.state, tp, now)
  {
    && (d.ready == [] || d.size + d.state.batches[Queue(d.state, tp)[0]].Size() <= maxSize)
    && !stop(tp) && MaySend(c, d.state)
  }

  function Take(c: Config, d: Drained, tp: TopicPartition, now: int): Drained
    requires Drainable(c, d.state, tp, now) && MaySend(c, d.state)
  {
    var s', i := PopHead(c, d.state, tp, now), Queue(d.state, tp)[0];
    Drained(s', d.ready + [i], d.size + s'.batches[i].Size())
  }

  /** The loop over the partitions of one node in visiting order. */
  function DrainNode(c: Config, d: Drained, parts: seq<TopicPartition>, stop: TopicPartition -> bool, maxSize: nat,
          now: int): Drained
    decreases |parts|
  {
    if parts == [] then d
    else if !Drainable(c, d.state, parts[0], now) then DrainNode(c, d, parts[1..], stop, maxSize, now)
    else if !Takes(c, d, parts[0], stop, maxSize, now) then d
    else DrainNode(c, Take(c, d, parts[0], now), parts[1..], stop, maxSize, now)
  }

  /** The heads it takes, in order, as drain events. */
  function DrainEvents(c: Config, d: Drained, parts: seq<TopicPartition>, stop: TopicPartition -> bool, maxSize: nat,
          now: int): seq<Event>
    decreases |parts|
  {
    if parts == [] then []
    else if !Drainable(c, d.state, parts[0], now) then DrainEvents(c, d, parts[1..], stop, maxSize, now)
    else if !Takes(c, d, parts[0], stop, maxSize, now) then []
    else [Drain(parts[0], now)] + DrainEvents(c, Take(c, d, parts[0], now), parts[1..], stop, maxSize, now)
  }

  // ----- the loop is a run of drain steps ----------------------------------------------

  function IdSet(ids: seq<nat>): set<nat> {
    set i | i in ids
  }

  function PartitionsOf(bs: seq<Batch>, ids: seq<nat>): set<TopicPartition> {
    set i | i in ids && i < |bs| :: bs[i].tp
  }

  /** The Sender's bookkeeping for drained batches: into the in-flight heaps, and mute their partitions. */
  function Register(c: Config, s: State, ids: seq<nat>): State {
    s.(inFlight := s.inFlight + IdSet(ids), drained := s.drained + IdSet(ids),
       muted := if c.guaranteeMessageOrder then s.muted + PartitionsOf(s.batches, ids) else s.muted)
  }

  /** One head taken and registered is one drain step. */
  lemma PopAndRegister(c: Config, s: State, ready: seq<nat>, tp: TopicPartition, now: int)
    requires Drainable(c, s, tp, now) && MaySend(c, s) && Structure(Register(c, s, ready))
    requires tp !in PartitionsOf(s.batches, ready) && s.expired == {} && !s.resetDue
    ensures var e := Drain(tp, now);
            && Enabled(c, Register(c, s, ready), e)
            && Step(c, Register(c, s, ready), e) ==
                 Returns(Register(c, PopHead(c, s, tp, now), ready + [Queue(s, tp)[0]]))
    ensures PartitionsOf(PopHead(c, s, tp, now).batches, ready + [Queue(s, tp)[0]]) ==
            PartitionsOf(s.batches, ready) + {tp}
  {
    var g, i := Register(c, s, ready), Queue(s, tp)[0];
    var p := PopHead(c, s, tp, now);
    assert QueueOk(g, tp) && BatchOk(g, i);
    assert IdSet(ready + [i]) == IdSet(ready) + {i};
    assert PartitionsOf(p.batches, ready + [i]) == PartitionsOf(s.batches, ready) + {tp} by {
      assert forall j :: j in ready + [i] <==> j in ready || j == i;
      assert p.batches[i].tp == tp;
      assert forall j :: 0 <= j < |s.batches| ==> p.batches[j].tp == s.batches[j].tp;
      assert i in ready + [i];
    }
    assert g.inFlight + {i} == s.inFlight + IdSet(ready + [i]);
    assert g.drained + {i} == s.drained + IdSet(ready + [i]);
    assert c.guaranteeMessageOrder ==> g.muted + {tp} == s.muted + PartitionsOf(p.batches, ready + [i]);
  }

  /**
   * The drain loop of one node, followed by the Sender's registration, is a run of single
   * drain steps; no exception can occur in it. `pre` are batches drained for other nodes.
   */
  lemma {:induction false} DrainIsRun(c: Config, pre: seq<nat>, d: Drained, parts: seq<TopicPartition>,
          stop: TopicPartition -> bool,
          maxSize: nat, now: int)
    requires Distinct(parts) && Structure(Register(c, d.state, pre + d.ready)) && d.state.expired == {}
    requires !d.state.resetDue
    requires forall tp :: tp in parts ==> tp !in PartitionsOf(d.state.batches, pre + d.ready)
    ensures var g := Register(c, d.state, pre + d.ready);
            var es, d' := DrainEvents(c, d, parts, stop, maxSize, now), DrainNode(c, d, parts, stop, maxSize, now);
            ValidRun(c, g, es) && Run(c, g, es) == Returns(Register(c, d'.state, pre + d'.ready))
    decreases |parts|
  {
    if parts != [] {
      var tp := parts[0];
      assert forall tp' :: tp' in parts[1..] ==> tp' in parts && tp' != tp;
      if !Drainable(c, d.state, tp, now) {
        DrainIsRun(c, pre, d, parts[1..], stop, maxSize, now);
      } else if Takes(c, d, tp, stop, maxSize, now) {
        var g, d' := Register(c, d.state, pre + d.ready), Take(c, d, tp, now);
        PopAndRegister(c, d.state, pre + d.ready, tp, now);
        DrainKeepsStructure(c, g, Drain(tp, now));
        assert pre + d.ready + [Queue(d.state, tp)[0]] == pre + d'.ready;
        DrainIsRun(c, pre, d', parts[1..], stop, maxSize, now);
        var es := DrainEvents(c, d', parts[1..], stop, maxSize, now);
        assert ([Drain(tp, now)] + es)[1..] == es;
      }
    }
  }

  // ----- what is taken -----------------------------------------------------------------

  /** The batches taken by the loop, in order: each the head of a deque of a visited partition. */
  ghost predicate TakenFrom(s: State, ids: seq<nat>, parts: seq<TopicPartition>) {
    && (forall k :: 0 <= k < |ids| ==> ids[k] < |s.batches|)
    && (forall k :: 0 <= k < |ids| ==>
          var tp := s.batches[ids[k]].tp;
          tp in parts && Queue(s, tp) != [] && Queue(s, tp)[0] == ids[k])
    && (forall k, l :: 0 <= k < l < |ids| ==> s.batches[ids[k]].tp != s.batches[ids[l]].tp)
  }

  lemma TakeKeepsQueues(c: Config, d: Drained, tp: TopicPartition, now: int)
    requires Drainable(c, d.state, tp, now) && MaySend(c, d.state) && forall t: TopicPartition :: QueueOk(d.state, t)
    ensures var s, s', i := d.state, Take(c, d, tp, now).state, Queue(d.state, tp)[0];
            && (forall t: TopicPartition :: QueueOk(s', t)) && |s'.batches| == |s.batches| && s.batches[i].tp == tp
            && (forall j :: 0 <= j < |s.batches| && j != i ==> s'.batches[j] == s.batches[j]) && s'.batches[i].tp == tp
            && s'.batches[i].created == s.batches[i].created
            && (forall t: TopicPartition :: t != tp ==> Queue(s', t) == Queue(s, t))
            && s' == s.(batches := s'.batches, queues := s'.queues, sequences := s'.sequences)
  {
    var s' := Take(c, d, tp, now).state;
    assert QueueOk(d.state, tp);
    forall t: TopicPartition ensures QueueOk(s', t) { assert QueueOk(d.state, t) && QueueOk(d.state, tp); }
  }

  lemma {:induction false} DrainTakesHeads(c: Config, d: Drained, parts: seq<TopicPartition>,
          stop: TopicPartition -> bool, maxSize: nat, now: int)
    requires Distinct(parts) && forall tp: TopicPartition :: QueueOk(d.state, tp)
    ensures var d' := DrainNode(c, d, parts, stop, maxSize, now);
            && d.ready <= d'.ready && TakenFrom(d.state, d'.ready[|d.ready|..], parts)
            && (forall tp :: tp !in parts ==> Queue(d'.state, tp) == Queue(d.state, tp))
            && |d'.state.batches| == |d.state.batches|
            && (forall i :: 0 <= i < |d.state.batches| && d.state.batches[i].tp !in parts ==>
                  d'.state.batches[i] == d.state.batches[i])
    decreases |parts|
  {
    if parts != [] {
      var tp := parts[0];
      if !Drainable(c, d.state, tp, now) {
        DrainTakesHeads(c, d, parts[1..], stop, maxSize, now);
      } else if Takes(c, d, tp, stop, maxSize, now) {
        var e := Take(c, d, tp, now);
        TakeKeepsQueues(c, d, tp, now);
        DrainTakesHeads(c, e, parts[1..], stop, maxSize, now);
        HeadThenRest(d.state, e.state, tp, Queue(d.state, tp)[0], DrainNode(c, e, parts[1..], stop, maxSize, now).ready,
          |d.ready|, parts);
      }
    }
  }

  lemma HeadThenRest(s: State, s': State, tp: TopicPartition, i: nat, ready: seq<nat>, n: nat,
          parts: seq<TopicPartition>)
    requires Distinct(parts) && parts != [] && parts[0] == tp && Queue(s, tp) != [] && Queue(s, tp)[0] == i
    requires i < |s.batches| == |s'.batches| && s.batches[i].tp == tp
    requires forall j :: 0 <= j < |s.batches| ==> s'.batches[j].tp == s.batches[j].tp
    requires forall t: TopicPartition :: t != tp ==> Queue(s', t) == Queue(s, t)
    requires n < |ready| && ready[n] == i && TakenFrom(s', ready[n + 1..], parts[1..])
    ensures TakenFrom(s, ready[n..], parts)
  {
    var ids, rest := ready[n..], ready[n + 1..];
    assert ids == [i] + rest;
    forall k | 0 <= k < |rest| ensures s.batches[rest[k]].tp in parts[1..] && s.batches[rest[k]].tp != tp {
      assert s'.batches[rest[k]].tp in parts[1..];
    }
    forall k | 0 <= k < |ids| ensures ids[k] < |s.batches| {
      if k > 0 { assert ids[k] == rest[k - 1]; }
    }
    forall k | 0 <= k < |ids|
      ensures var t := s.batches[ids[k]].tp; t in parts && Queue(s, t) != [] && Queue(s, t)[0] == ids[k]
    {
      if k > 0 { assert ids[k] == rest[k - 1]; }
    }
    forall k, l | 0 <= k < l < |ids| ensures s.batches[ids[k]].tp != s.batches[ids[l]].tp {
      assert ids[l] == rest[l - 1];
      if k > 0 { assert ids[k] == rest[k - 1]; }
    }
  }

  function TotalSize(bs: seq<Batch>, ids: seq<nat>): nat {
    if ids == [] then 0
    else TotalSize(bs, ids[..|ids| - 1]) + if ids[|ids| - 1] < |bs| then bs[ids[|ids| - 1]].closedSize else 0
  }

  lemma {:induction false} TotalSizeFrame(bs: seq<Batch>, bs': seq<Batch>, ids: seq<nat>)
    requires |bs'| == |bs| && forall i :: 0 <= i < |bs| ==> bs'[i].closedSize == bs[i].closedSize
    ensures TotalSize(bs', ids) == TotalSize(bs, ids)
  {
    if ids != [] { TotalSizeFrame(bs, bs', ids[..|ids| - 1]); }
  }

  /** The request stays within max_size unless it is a single batch, as long as closing never grows a batch. */
  lemma {:induction false} DrainFitsRequest(c: Config, d: Drained, parts: seq<TopicPartition>,
          stop: TopicPartition -> bool, maxSize: nat, now: int)
    requires forall i :: 0 <= i < |d.state.batches| ==> d.state.batches[i].closedSize <= d.state.batches[i].openSize
    requires d.size == TotalSize(d.state.batches, d.ready) && (|d.ready| >= 2 ==> d.size <= maxSize)
    ensures var d' := DrainNode(c, d, parts, stop, maxSize, now);
            d'.size == TotalSize(d'.state.batches, d'.ready) && (|d'.ready| >= 2 ==> d'.size <= maxSize)
    decreases |parts|
  {
    if parts != [] {
      var tp := parts[0];
      if !Drainable(c, d.state, tp, now) {
        DrainFitsRequest(c, d, parts[1..], stop, maxSize, now);
      } else if Takes(c, d, tp, stop, maxSize, now) {
        var e := Take(c, d, tp, now);
        assert e.ready[..|e.ready| - 1] == d.ready;
        TotalSizeFrame(d.state.batches, e.state.batches, d.ready);
        DrainFitsRequest(c, e, parts[1..], stop, maxSize, now);
      }
    }
  }

  /** The first partition the loop would not skip. */
  function FirstDrainable(c: Config, s: State, parts: seq<TopicPartition>, now: int): Option<TopicPartition> {
    if parts == [] then None else if Drainable(c, s, parts[0], now) then Some(parts[0])
    else FirstDrainable(c, s, parts[1..], now)
  }

  lemma {:induction false} DrainOnlyAdds(c: Config, d: Drained, parts: seq<TopicPartition>,
          stop: TopicPartition -> bool, maxSize: nat, now: int)
    ensures d.ready <= DrainNode(c, d, parts, stop, maxSize, now).ready
    decreases |parts|
  {
    if parts != [] {
      if !Drainable(c, d.state, parts[0], now) {
        DrainOnlyAdds(c, d, parts[1..], stop, maxSize, now);
      } else if Takes(c, d, parts[0], stop, maxSize, now) {
        DrainOnlyAdds(c, Take(c, d, parts[0], now), parts[1..], stop, maxSize, now);
      }
    }
  }

  /** The loop returns a batch exactly when the first partition it does not skip may be sent to. */
  lemma {:induction false} DrainsSomething(c: Config, s: State, parts: seq<TopicPartition>,
          stop: TopicPartition -> bool, maxSize: nat, now: int)
    ensures var first := FirstDrainable(c, s, parts, now);
            DrainNode(c, Drained(s, [], 0), parts, stop, maxSize, now).ready != [] <==>
              first.Some? && !stop(first.value) && MaySend(c, s)
    decreases |parts|
  {
    if parts != [] {
      var d := Drained(s, [], 0);
      if !Drainable(c, s, parts[0], now) {
        DrainsSomething(c, s, parts[1..], stop, maxSize, now);
      } else if Takes(c, d, parts[0], stop, maxSize, now) {
        DrainOnlyAdds(c, Take(c, d, parts[0], now), parts[1..], stop, maxSize, now);
      }
    }
  }

  // ----- all nodes of a round ----------------------------------------------------------

  datatype Round = Round(state: State, lists: seq<seq<nat>>)

  /** RecordAccumulator.drain: one node after another, each with its visiting order. */
  function DrainOrders(c: Config, s: State, orders: seq<seq<TopicPartition>>, stop: TopicPartition -> bool,
          maxSize: nat, now: int): Round {
    if orders == [] then Round(s, [])
    else
      var r := DrainOrders(c, s, orders[..|orders| - 1], stop, maxSize, now);
      var d := DrainNode(c, Drained(r.state, [], 0), orders[|orders| - 1], stop, maxSize, now);
      Round(d.state, r.lists + [d.ready])
  }

  function Concat(lists: seq<seq<nat>>): seq<nat> {
    if lists == [] then [] else Concat(lists[..|lists| - 1]) + lists[|lists| - 1]
  }

  /** Different nodes lead different partitions, each listed once. */
  ghost predicate OrdersOk(orders: seq<seq<TopicPartition>>) {
    && (forall k :: 0 <= k < |orders| ==> Distinct(orders[k]))
    && (forall k, l :: 0 <= k < l < |orders| ==> forall tp :: tp in orders[k] ==> tp !in orders[l])
  }

  ghost predicate Visited(orders: seq<seq<TopicPartition>>, tp: TopicPartition) {
    exists k :: 0 <= k < |orders| && tp in orders[k]
  }

  lemma OrdersPrefix(orders: seq<seq<TopicPartition>>, n: nat)
    requires OrdersOk(orders) && |orders| == n + 1
    ensures OrdersOk(orders[..n]) && Distinct(orders[n])
    ensures forall tp :: tp in orders[n] ==> !Visited(orders[..n], tp)
    ensures forall tp :: Visited(orders, tp) <==> Visited(orders[..n], tp) || tp in orders[n]
  {
    forall tp | tp in orders[n] ensures !Visited(orders[..n], tp) {}
    forall tp ensures Visited(orders, tp) <==> Visited(orders[..n], tp) || tp in orders[n] {
      if Visited(orders[..n], tp) {
        var k :| 0 <= k < n && tp in orders[..n][k];
        assert tp in orders[k];
      }
      if Visited(orders, tp) {
        var k :| 0 <= k < |orders| && tp in orders[k];
        assert k < n ==> orders[..n][k] == orders[k];
      }
    }
  }

  /** Batches of pairwise different partitions. */
  ghost predicate Apart(bs: seq<Batch>, ids: seq<nat>) {
    && (forall k :: 0 <= k < |ids| ==> ids[k] < |bs|)
    && (forall k, l :: 0 <= k < l < |ids| ==> bs[ids[k]].tp != bs[ids[l]].tp)
  }

  lemma ApartAppend(bs: seq<Batch>, bs': seq<Batch>, a: seq<nat>, b: seq<nat>)
    requires Apart(bs, a) && Apart(bs', b) && |bs'| == |bs| && forall i :: 0 <= i < |bs| ==> bs'[i].tp == bs[i].tp
    requires forall k, l :: 0 <= k < |a| && 0 <= l < |b| ==> bs[a[k]].tp != bs[b[l]].tp
    ensures Apart(bs, a + b)
  {
    forall k, l | 0 <= k < l < |a + b| ensures bs[(a + b)[k]].tp != bs[(a + b)[l]].tp {
      if l >= |a| && k >= |a| { assert bs'[b[k - |a|]].tp != bs'[b[l - |a|]].tp; }
    }
  }

  /** Deques of partitions that no node of the round leads are untouched. */
  lemma {:induction false} RoundTakesHeads(c: Config, s: State, orders: seq<seq<TopicPartition>>,
          stop: TopicPartition -> bool, maxSize: nat, now: int)
    requires OrdersOk(orders) && forall tp: TopicPartition :: QueueOk(s, tp)
    ensures var r := DrainOrders(c, s, orders, stop, maxSize, now);
            && |r.lists| == |orders| && |r.state.batches| == |s.batches|
            && (forall tp: TopicPartition :: QueueOk(r.state, tp))
            && (forall i :: 0 <= i < |s.batches| ==> r.state.batches[i].tp == s.batches[i].tp)
            && (forall tp :: tp in PartitionsOf(s.batches, Concat(r.lists)) ==> Visited(orders, tp))
            && (forall tp :: !Visited(orders, tp) ==> Queue(r.state, tp) == Queue(s, tp))
            && (forall i :: 0 <= i < |s.batches| && !Visited(orders, s.batches[i].tp) ==>
                  r.state.batches[i] == s.batches[i])
  {
    if orders != [] {
      var n := |orders| - 1;
      OrdersPrefix(orders, n);
      RoundTakesHeads(c, s, orders[..n], stop, maxSize, now);
      var r := DrainOrders(c, s, orders[..n], stop, maxSize, now);
      var d := Drained(r.state, [], 0);
      DrainTakesHeads(c, d, orders[n], stop, maxSize, now);
      NodeKeepsQueues(c, d, orders[n], stop, maxSize, now);
      var d' := DrainNode(c, d, orders[n], stop, maxSize, now);
      var ids := Concat(r.lists) + d'.ready;
      assert (r.lists + [d'.ready])[..|r.lists|] == r.lists;
      assert d'.ready[0..] == d'.ready;
      forall tp | tp in PartitionsOf(s.batches, ids) ensures Visited(orders, tp) {
        var i :| i in ids && i < |s.batches| && s.batches[i].tp == tp;
        if i in Concat(r.lists) {
          assert tp in PartitionsOf(s.batches, Concat(r.lists));
        } else {
          var k :| 0 <= k < |d'.ready| && d'.ready[k] == i;
        }
      }
    }
  }

  /**
   * The batches of a whole round have pairwise different partitions: the sender's dictionaries
   * by partition lose none.
   */
  lemma {:induction false} RoundApart(c: Config, s: State, orders: seq<seq<TopicPartition>>,
          stop: TopicPartition -> bool, maxSize: nat, now: int)
    requires OrdersOk(orders) && forall tp: TopicPartition :: QueueOk(s, tp)
    ensures Apart(s.batches, Concat(DrainOrders(c, s, orders, stop, maxSize, now).lists))
  {
    if orders != [] {
      var n := |orders| - 1;
      OrdersPrefix(orders, n);
      RoundTakesHeads(c, s, orders[..n], stop, maxSize, now);
      RoundApart(c, s, orders[..n], stop, maxSize, now);
      var r := DrainOrders(c, s, orders[..n], stop, maxSize, now);
      var d := Drained(r.state, [], 0);
      DrainTakesHeads(c, d, orders[n], stop, maxSize, now);
      var d', pre := DrainNode(c, d, orders[n], stop, maxSize, now), Concat(r.lists);
      assert d'.ready[0..] == d'.ready && (r.lists + [d'.ready])[..|r.lists|] == r.lists;
      CrossApart(s, r.state, orders, n, pre, d'.ready);
      ApartAppend(s.batches, r.state.batches, pre, d'.ready);
    }
  }

  lemma CrossApart(s: State, s1: State, orders: seq<seq<TopicPartition>>, n: nat, pre: seq<nat>, ids: seq<nat>)
    requires n < |orders| && Apart(s.batches, pre) && TakenFrom(s1, ids, orders[n]) && |s1.batches| == |s.batches|
    requires forall i :: 0 <= i < |s.batches| ==> s1.batches[i].tp == s.batches[i].tp
    requires forall tp :: tp in PartitionsOf(s.batches, pre) ==> Visited(orders[..n], tp)
    requires forall tp :: tp in orders[n] ==> !Visited(orders[..n], tp)
    ensures forall k, l :: 0 <= k < |pre| && 0 <= l < |ids| ==> s.batches[pre[k]].tp != s.batches[ids[l]].tp
  {
    forall k, l | 0 <= k < |pre| && 0 <= l < |ids| ensures s.batches[pre[k]].tp != s.batches[ids[l]].tp {
      assert pre[k] in pre;
      assert s.batches[pre[k]].tp in PartitionsOf(s.batches, pre);
      assert s1.batches[ids[l]].tp in orders[n];
    }
  }

  lemma {:induction false} NodeKeepsQueues(c: Config, d: Drained, parts: seq<TopicPartition>,
          stop: TopicPartition -> bool, maxSize: nat, now: int)
    requires forall tp: TopicPartition :: QueueOk(d.state, tp)
    ensures var d' := DrainNode(c, d, parts, stop, maxSize, now);
            && |d'.state.batches| == |d.state.batches| && (forall tp: TopicPartition :: QueueOk(d'.state, tp))
            && (forall i :: 0 <= i < |d.state.batches| ==> d'.state.batches[i].tp == d.state.batches[i].tp)
            && SameBirth(d.state, d'.state)
            && d'.state == d.state.(batches := d'.state.batches, queues := d'.state.queues,
                 sequences := d'.state.sequences)
    decreases |parts|
  {
    if parts != [] {
      if !Drainable(c, d.state, parts[0], now) {
        NodeKeepsQueues(c, d, parts[1..], stop, maxSize, now);
      } else if Takes(c, d, parts[0], stop, maxSize, now) {
        TakeKeepsQueues(c, d, parts[0], now);
        NodeKeepsQueues(c, Take(c, d, parts[0], now), parts[1..], stop, maxSize, now);
      }
    }
  }

  /** A partition the round has not visited is drainable afterwards as before. */
  lemma StaysDrainable(c: Config, s: State, s': State, tp: TopicPartition, now: int)
    requires Drainable(c, s, tp, now) && QueueOk(s, tp) && Queue(s', tp) == Queue(s, tp) && s'.muted == s.muted
    requires |s'.batches| == |s.batches| && s'.batches[Queue(s, tp)[0]] == s.batches[Queue(s, tp)[0]]
    ensures Drainable(c, s', tp, now)
  {
  }

  lemma NodeDrains(c: Config, s: State, parts: seq<TopicPartition>, stop: TopicPartition -> bool, maxSize: nat,
          now: int, tp: TopicPartition)
    requires tp in parts && Drainable(c, s, tp, now) && MaySend(c, s) && forall t :: t in parts ==> !stop(t)
    ensures DrainNode(c, Drained(s, [], 0), parts, stop, maxSize, now).ready != []
  {
    FirstIsFound(c, s, parts, now, tp);
    DrainsSomething(c, s, parts, stop, maxSize, now);
  }

  /** Every node with a partition that may be drained gets a batch, however many nodes are drained before it. */
  lemma {:induction false} EveryNodeDrains(c: Config, s: State, orders: seq<seq<TopicPartition>>,
          stop: TopicPartition -> bool, maxSize: nat, now: int,
          n: nat, k: nat, tp: TopicPartition)
    requires OrdersOk(orders) && k <= n && |orders| == n + 1 && (forall t: TopicPartition :: QueueOk(s, t))
    requires tp in orders[k] && Drainable(c, s, tp, now) && MaySend(c, s) && forall t :: t in orders[k] ==> !stop(t)
    ensures |DrainOrders(c, s, orders, stop, maxSize, now).lists| == |orders|
    ensures DrainOrders(c, s, orders, stop, maxSize, now).lists[k] != []
    decreases n
  {
    OrdersPrefix(orders, n);
    RoundTakesHeads(c, s, orders[..n], stop, maxSize, now);
    if k < n {
      EveryNodeDrains(c, s, orders[..n], stop, maxSize, now, n - 1, k, tp);
    } else {
      RoundKeepsRest(c, s, orders[..n], stop, maxSize, now);
      var r := DrainOrders(c, s, orders[..n], stop, maxSize, now).state;
      assert QueueOk(s, tp);
      StaysDrainable(c, s, r, tp, now);
      NodeDrains(c, r, orders[n], stop, maxSize, now, tp);
    }
  }

  lemma {:induction false} FirstIsFound(c: Config, s: State, parts: seq<TopicPartition>, now: int, tp: TopicPartition)
    requires tp in parts && Drainable(c, s, tp, now)
    ensures FirstDrainable(c, s, parts, now).Some? && FirstDrainable(c, s, parts, now).value in parts
  {
    if !Drainable(c, s, parts[0], now) {
      FirstIsFound(c, s, parts[1..], now, tp);
    }
  }

  lemma {:induction false} RoundKeepsRest(c: Config, s: State, orders: seq<seq<TopicPartition>>,
          stop: TopicPartition -> bool, maxSize: nat, now: int)
    requires forall tp: TopicPartition :: QueueOk(s, tp)
    ensures var r := DrainOrders(c, s, orders, stop, maxSize, now);
            && (forall tp: TopicPartition :: QueueOk(r.state, tp)) && SameBirth(s, r.state)
            && r.state == s.(batches := r.state.batches, queues := r.state.queues, sequences := r.state.sequences)
  {
    if orders != [] {
      var n := |orders| - 1;
      RoundKeepsRest(c, s, orders[..n], stop, maxSize, now);
      NodeKeepsQueues(c, Drained(DrainOrders(c, s, orders[..n], stop, maxSize, now).state, [], 0), orders[n], stop,
        maxSize, now);
    }
  }

  function RoundEvents(c: Config, s: State, orders: seq<seq<TopicPartition>>, stop: TopicPartition -> bool,
          maxSize: nat, now: int): seq<Event> {
    if orders == [] then []
    else
      var n := |orders| - 1;
      RoundEvents(c, s, orders[..n], stop, maxSize, now)
        + DrainEvents(c, Drained(DrainOrders(c, s, orders[..n], stop, maxSize, now).state, [], 0), orders[n], stop,
          maxSize, now)
  }

  /** A whole round, registered, is a run of single drain steps. */
  lemma {:induction false} RoundIsRun(c: Config, s: State, orders: seq<seq<TopicPartition>>,
          stop: TopicPartition -> bool, maxSize: nat, now: int)
    requires OrdersOk(orders) && Invariant(c, s) && s.expired == {} && !s.resetDue
    ensures var r := DrainOrders(c, s, orders, stop, maxSize, now);
            var es := RoundEvents(c, s, orders, stop, maxSize, now);
            ValidRun(c, s, es) && Run(c, s, es) == Returns(Register(c, r.state, Concat(r.lists)))
  {
    if orders == [] {
      assert IdSet([]) == {} && PartitionsOf(s.batches, []) == {};
      assert s.inFlight + {} == s.inFlight && s.drained + {} == s.drained && s.muted + {} == s.muted;
    } else {
      var n := |orders| - 1;
      OrdersPrefix(orders, n);
      RoundIsRun(c, s, orders[..n], stop, maxSize, now);
      RoundTakesHeads(c, s, orders[..n], stop, maxSize, now);
      RoundKeepsRest(c, s, orders[..n], stop, maxSize, now);
      var r, es := DrainOrders(c, s, orders[..n], stop, maxSize, now),
        RoundEvents(c, s, orders[..n], stop, maxSize, now);
      assert PartitionsOf(r.state.batches, Concat(r.lists)) == PartitionsOf(s.batches, Concat(r.lists));
      NodeExtendsRun(c, s, es, r, orders[n], stop, maxSize, now);
      assert (r.lists + [DrainNode(c, Drained(r.state, [], 0), orders[n], stop, maxSize, now).ready])[..|r.lists|] ==
        r.lists;
    }
  }

  /** The drain of one more node continues the run of a round. */
  lemma NodeExtendsRun(c: Config, s: State, es: seq<Event>, r: Round, order: seq<TopicPartition>,
          stop: TopicPartition -> bool,
          maxSize: nat, now: int)
    requires Invariant(c, s) && ValidRun(c, s, es) && Run(c, s, es) == Returns(Register(c, r.state, Concat(r.lists)))
    requires Distinct(order) && r.state.expired == {} && !r.state.resetDue
    requires forall tp :: tp in order ==> tp !in PartitionsOf(r.state.batches, Concat(r.lists))
    ensures var d := Drained(r.state, [], 0);
            var es' := es + DrainEvents(c, d, order, stop, maxSize, now);
            var d' := DrainNode(c, d, order, stop, maxSize, now);
            ValidRun(c, s, es') && Run(c, s, es') == Returns(Register(c, d'.state, Concat(r.lists) + d'.ready))
  {
    RunKeepsInvariant(c, s, es);
    var pre, d := Concat(r.lists), Drained(r.state, [], 0);
    assert pre + d.ready == pre;
    DrainIsRun(c, pre, d, order, stop, maxSize, now);
    RunAppend(c, s, es, DrainEvents(c, d, order, stop, maxSize, now));
  }

  // ----- rotation ----------------------------------------------------------------------

  /** The order in which the loop visits n partitions from position `start`. */
  function Rotated(parts: seq<TopicPartition>, start: nat): seq<TopicPartition>
    requires start <= |parts|
  {
    parts[start..] + parts[..start]
  }

  /** The index after v steps from `start` around n places. */
  function Place(n: nat, start: nat, v: nat): nat
    requires start < n && v <= n
  {
    if start + v < n then start + v else start + v - n
  }

  lemma RotatedAt(parts: seq<TopicPartition>, start: nat, v: nat)
    requires start < |parts| && v < |parts|
    ensures var order := Rotated(parts, start);
            order[v..] != [] && order[v..][0] == parts[Place(|parts|, start, v)] && order[v..][1..] == order[v + 1..]
  {
  }

  lemma NextPlace(n: nat, i: nat)
    requires i < n
    ensures (i + 1) % n == if i + 1 == n then 0 else i + 1
  {
  }

  lemma RotatedDistinct(parts: seq<TopicPartition>, start: nat)
    requires Distinct(parts) && start <= |parts|
    ensures Distinct(Rotated(parts, start))
    ensures forall tp :: tp in Rotated(parts, start) <==> tp in parts
  {
    assert parts == parts[..start] + parts[start..];
    forall i, j | 0 <= i < j < |parts| ensures Rotated(parts, start)[i] != Rotated(parts, start)[j] {}
  }
}
