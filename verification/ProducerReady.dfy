/**
 * When waiting batches become ready: the wait that `ready` works with is exact, in every
 * reachable state, for single partitions and for the whole answer.
 */
module ProducerReady {
  import opened Common
  import opened ProducerModel
  import opened ProducerInvariants
  import opened ProducerRuns
  import opened ProducerRetries
  import opened ProducerDrain
  import opened Accumulator

  /** The partition has a batch that the sender may look at. */
  predicate HasHead(s: State, tp: TopicPartition) {
    tp !in s.muted && Queue(s, tp) != [] && Queue(s, tp)[0] < |s.batches|
  }

  function Head(s: State, tp: TopicPartition): Batch
    requires HasHead(s, tp)
  {
    s.batches[Queue(s, tp)[0]]
  }

  /** The head was attempted less than the back-off time ago. */
  predicate InBackoff(c: Config, b: Batch, now: int) {
    b.attempts > 0 && now < b.lastAttempt + c.retryBackoff
  }

  /** The head is the only batch, can still grow, nothing forces it out, and its linger time runs from its creation. */
  predicate Lingers(c: Config, s: State, forced: bool, tp: TopicPartition, now: int)
    requires HasHead(s, tp)
  {
    var b := Head(s, tp);
    && Queue(s, tp) == [Queue(s, tp)[0]] && !b.closed && b.openSize < c.batchSize && !forced
    && b.attempts == 0 && now < b.created + c.linger
  }

  lemma HeadIsRetryOrOpen(c: Config, s: State, tp: TopicPartition)
    requires ReachableState(c, s) && HasHead(s, tp)
    ensures var b := Head(s, tp); (b.attempts > 0 <==> b.closed) && (b.attempts == 0 ==> b.lastAttempt == b.created)
  {
    ReachableKeepsInvariant(c, s);
    var i := Queue(s, tp)[0];
    RetriesAreTimely(c, s, i);
    assert QueueOk(s, tp) && i in Queue(s, tp);
    assert BatchOk(s, i);
  }

  /** Why a partition is not ready, in any reachable state: nothing to send, muted, backing off, or lingering. */
  lemma NotReadyWhen(c: Config, s: State, forced: bool, tp: TopicPartition, now: int)
    requires ReachableState(c, s)
    ensures ReadyToSend(c, s, forced, tp, now) <==>
            HasHead(s, tp) && !InBackoff(c, Head(s, tp), now) && !Lingers(c, s, forced, tp, now)
  {
    if HasHead(s, tp) { HeadIsRetryOrOpen(c, s, tp); }
  }

  /**
   * The wait ends, and no sooner: as long as nothing happens to the deques, a partition that is not ready is
   * ready at exactly the times from the end of its computed wait on. One that is ready stays ready.
   */
  lemma WaitIsExact(c: Config, s: State, forced: bool, tp: TopicPartition, now: int, later: int)
    requires ReachableState(c, s) && HasHead(s, tp) && now <= later
    ensures var ready := ReadyToSend(c, s, forced, tp, now);
            var left := TimeLeft(c, Head(s, tp), now);
            && (!ready ==> 0 < left)
            && (ReadyToSend(c, s, forced, tp, later) <==> ready || now + left <= later)
  {
    HeadIsRetryOrOpen(c, s, tp);
  }

  // ----- the whole answer --------------------------------------------------------------

  /** The wait of this partition was the shortest, and now its node is ready. */
  ghost predicate WaitOver(c: Config, s: State, forced: bool, leaderFor: TopicPartition -> Option<int>, now: int,
          check: int, nodes: set<int>, tp: TopicPartition) {
    && IsWait(c, s, forced, leaderFor(tp), tp, now, check) && leaderFor(tp).value in nodes
  }

  /**
   * Two calls of `ready` with the deques unchanged between them: no node drops out, no node comes before
   * the check time of the first call, and from then on the node of a partition that was waiting is there.
   */
  lemma NextCheckIsExact(c: Config, s: State, forced: bool, leaderFor: TopicPartition -> Option<int>,
          tps: set<TopicPartition>, now: int, nodes: set<int>, check: int, unknown: bool, later: int, nodes1: set<int>,
          check1: int, unknown1: bool)
    requires ReachableState(c, s) && now <= later
    requires Answers(c, s, forced, leaderFor, tps, now, nodes, check, unknown)
    requires Answers(c, s, forced, leaderFor, tps, later, nodes1, check1, unknown1)
    ensures nodes <= nodes1 && unknown1 == unknown
    ensures later < now + check ==> nodes1 == nodes
    ensures now + check <= later && check != NO_CHECK ==>
              exists tp :: tp in tps && WaitOver(c, s, forced, leaderFor, now, check, nodes1, tp)
  {
    forall n | n in nodes ensures n in nodes1 {
      assert ReadyNode(c, s, forced, leaderFor, tps, now, n);
      var tp :| tp in tps && leaderFor(tp) == Some(n) && n != -1 && ReadyToSend(c, s, forced, tp, now);
      ReadyLater(c, s, forced, leaderFor, tps, now, later, tp);
      assert ReadyNode(c, s, forced, leaderFor, tps, later, n);
    }
    if later < now + check {
      forall n | n in nodes1 ensures n in nodes {
        assert ReadyNode(c, s, forced, leaderFor, tps, later, n);
        var tp :| tp in tps && leaderFor(tp) == Some(n) && n != -1 && ReadyToSend(c, s, forced, tp, later);
        WaitIsExact(c, s, forced, tp, now, later);
        assert ReadyToSend(c, s, forced, tp, now) ==> ReadyNode(c, s, forced, leaderFor, tps, now, n);
      }
    } else if check != NO_CHECK {
      var tp :| tp in tps && IsWait(c, s, forced, leaderFor(tp), tp, now, check);
      ReadyLater(c, s, forced, leaderFor, tps, now, later, tp);
      assert ReadyNode(c, s, forced, leaderFor, tps, later, leaderFor(tp).value);
      assert WaitOver(c, s, forced, leaderFor, now, check, nodes1, tp);
    }
  }

  lemma ReadyLater(c: Config, s: State, forced: bool, leaderFor: TopicPartition -> Option<int>,
          tps: set<TopicPartition>, now: int, later: int, tp: TopicPartition)
    requires ReachableState(c, s) && tp in tps && Led(leaderFor(tp)) && HasHead(s, tp) && now <= later
    requires ReadyToSend(c, s, forced, tp, now) || now + TimeLeft(c, Head(s, tp), now) <= later
    ensures ReadyNode(c, s, forced, leaderFor, tps, later, leaderFor(tp).value)
  {
    WaitIsExact(c, s, forced, tp, now, later);
  }
}
