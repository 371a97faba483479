/**
 * Fetcher.PartitionRecords: the records of one fetch response, handed out in portions. The
 * generator's suspended state is explicit: the batch cursor, what is left of the current
 * batch, and the read_committed filter.
 */
module PartitionReader {
  import opened Common
  import opened PartitionLog

  function Sum(ns: seq<nat>): nat {
    if ns == [] then 0 else Sum(ns[..|ns| - 1]) + ns[|ns| - 1]
  }

  function Min(a: nat, b: nat): nat {
    if a <= b then a else b
  }

  /** itertools.dropwhile over the records before the fetch offset. */
  function Drop(dropping: bool, rs: seq<Record>, fetchOffset: int): seq<Record> {
    if dropping then rs[Before(rs, fetchOffset)..] else rs
  }

  lemma HeadAndTail(a: seq<Record>, b: seq<Record>)
    requires a != []
    ensures a + b != [] && (a + b)[0] == a[0] && (a + b)[1..] == a[1..] + b && a + b == [a[0]] + (a[1..] + b)
  {
  }

  lemma DropFirst(rs: seq<Record>, fetchOffset: int)
    requires rs != []
    ensures rs[0].offset < fetchOffset ==> Drop(true, rs, fetchOffset) == Drop(true, rs[1..], fetchOffset)
    ensures rs[0].offset >= fetchOffset ==> Drop(true, rs, fetchOffset) == rs
  {
  }

  /** The position after some records. */
  function Past(position: int, got: seq<Record>): int {
    if got == [] then position else got[|got| - 1].offset + 1
  }

  lemma SplitAt(all: seq<Record>, a: seq<Record>, b: seq<Record>)
    requires a + b == all
    ensures all[..|a|] == a && all[|a|..] == b
  {
  }

  lemma PortionsJoin(all: seq<Record>, m: nat, n: nat, part: seq<Record>)
    requires m <= |all| && part == if n > |all[m..]| then all[m..] else all[m..][..n]
    ensures |part| == Min(n, |all| - m) && all[..m] + part == all[..m + |part|]
    ensures all[m..][|part|..] == all[m + |part|..]
  {
  }

  class PartitionRecords {
    const tp: TopicPartition
    const fetchOffset: int
    const batches: seq<Batch>
    const committed: bool
    var nextFetchOffset: int
    var abortedTransactions: seq<AbortedTransaction>
    var abortedProducerIds: set<int>
    var cursor: nat                 // batches read so far
    var rest: seq<Record>           // of the batch last read
    var dropping: bool              // no record has passed dropwhile yet
    var drained: bool

    ghost predicate Valid()
      reads this
    {
      cursor <= |batches| && (cursor == 0 ==> rest == [])
    }

    function State(): Filter
      reads this
    {
      Filter(abortedTransactions, abortedProducerIds)
    }

    /** What the generator would still yield. */
    function Ahead(): seq<Record>
      requires Valid()
      reads this
    {
      rest + Output(committed, State(), batches[cursor..])
    }

    /** What take() would still hand out. */
    function Remaining(): seq<Record>
      requires Valid()
      reads this
    {
      if drained then [] else Drop(dropping, Ahead(), fetchOffset)
    }

    constructor (tp: TopicPartition, fetchOffset: int, batches: seq<Batch>, committed: bool,
            aborted: seq<AbortedTransaction>)
      ensures Valid() && !drained && nextFetchOffset == fetchOffset
      ensures this.tp == tp && this.batches == batches
      ensures Remaining() == Drop(true, Output(committed, Filter(Sorted(aborted), {}), batches), fetchOffset)
    {
      this.tp, this.fetchOffset, this.batches, this.committed := tp, fetchOffset, batches, committed;
      nextFetchOffset, abortedTransactions, abortedProducerIds := fetchOffset, Sorted(aborted), {};
      cursor, rest, dropping, drained := 0, [], true, false;
      new;
      assert batches[0..] == batches;
      assert Ahead() == Output(committed, Filter(Sorted(aborted), {}), batches);
    }

    method ConsumeAbortedTransactionsUpTo(offset: int)
      modifies this`abortedTransactions, this`abortedProducerIds
      ensures State() == Consume(old(State()), offset)
    {
      while abortedTransactions != [] && abortedTransactions[0].first <= offset
        invariant Consume(State(), offset) == Consume(old(State()), offset)
        decreases |abortedTransactions|
      {
        abortedProducerIds := abortedProducerIds + {abortedTransactions[0].pid};
        abortedTransactions := abortedTransactions[1..];
      }
    }

    /** The checks the generator makes before it yields a batch's records. */
    method EnterBatch(b: Batch) returns (skip: bool)
      modifies this`abortedTransactions, this`abortedProducerIds
      ensures (State(), skip) == Enter(committed, old(State()), b)
    {
      skip := false;
      if b.magic == 2 {
        if committed && b.HasPid() {
          ConsumeAbortedTransactionsUpTo(b.last);
          if b.control && b.abort {
            abortedProducerIds := abortedProducerIds - {b.pid};
          } else if b.transactional && b.pid in abortedProducerIds {
            return true;
          }
        }
        skip := b.control;
      }
    }

    /** Where the position ends once the generator is exhausted, for batches of message format v2. */
    ghost predicate AtEnd(before: int)
      reads this
    {
      && (batches == [] ==> nextFetchOffset == before)
      && (batches != [] && batches[|batches| - 1].magic == 2 ==> nextFetchOffset == batches[|batches| - 1].last + 1)
    }

    /** One record from the generator through dropwhile, or its end. */
    method NextRecord() returns (r: Option<Record>)
      requires Valid() && !drained
      modifies this
      ensures Valid()
      ensures r.None? <==> old(Remaining()) == []
      ensures r.None? ==> drained && AtEnd(old(nextFetchOffset))
      ensures r.Some? ==> !drained && [r.value] + Remaining() == old(Remaining())
      ensures r.Some? ==> nextFetchOffset == r.value.offset + 1
    {
      while true
        invariant Valid() && !drained && Remaining() == old(Remaining())
        invariant batches == [] ==> nextFetchOffset == old(nextFetchOffset)
        decreases |batches| - cursor, |rest|
      {
        if rest != [] {
          r := YieldRecord();
          if r.Some? { return; }
        } else if cursor == |batches| {
          assert Ahead() == [];
          if cursor > 0 && batches[cursor - 1].magic == 2 {
            nextFetchOffset := batches[cursor - 1].last + 1;
          }
          drained := true;
          return None;
        } else {
          ReadBatch();
        }
      }
    }

    /** The generator yields the next record of the batch; dropwhile passes it or not. */
    method YieldRecord() returns (r: Option<Record>)
      requires Valid() && !drained && rest != []
      modifies this`rest, this`nextFetchOffset, this`dropping
      ensures Valid() && |rest| < |old(rest)|
      ensures r.None? ==> Remaining() == old(Remaining())
      ensures r.Some? ==> old(Remaining()) == [r.value] + Remaining() && nextFetchOffset == r.value.offset + 1
    {
      var first := rest[0];
      ghost var ahead := Ahead();
      HeadAndTail(rest, Output(committed, State(), batches[cursor..]));
      rest := rest[1..];
      assert ahead[0] == first && ahead[1..] == Ahead();
      DropFirst(ahead, fetchOffset);
      nextFetchOffset := first.offset + 1;
      if dropping && first.offset < fetchOffset {
        return None;
      }
      dropping := false;
      return Some(first);
    }

    /** The generator moves on to the next batch, which it skips or starts to yield. */
    method ReadBatch()
      requires Valid() && rest == [] && cursor < |batches|
      modifies this`cursor, this`rest, this`nextFetchOffset, this`abortedTransactions, this`abortedProducerIds
      ensures Valid() && cursor == old(cursor) + 1 && Ahead() == old(Ahead())
    {
      var b := batches[cursor];
      assert batches[cursor..][0] == b && batches[cursor..][1..] == batches[cursor + 1..];
      cursor := cursor + 1;
      var skip := EnterBatch(b);
      if skip {
        nextFetchOffset := b.last + 1;
      } else {
        rest := b.records;
      }
    }

    /** take(n): the next n records, or all that are left. */
    method Take(n: Option<nat>) returns (got: seq<Record>)
      requires Valid() && !drained
      modifies this
      ensures Valid()
      ensures var all := old(Remaining());
              && (drained <==> n.None? || n.value > |all|)
              && got == (if drained then all else all[..n.value])
              && Remaining() == all[|got|..]
      ensures drained ==> AtEnd(Past(old(nextFetchOffset), got))
      ensures !drained ==> nextFetchOffset == Past(old(nextFetchOffset), got)
    {
      got := [];
      ghost var all := Remaining();
      while n.None? || |got| < n.value
        invariant Valid() && !drained && got + Remaining() == all
        invariant n.Some? ==> |got| <= n.value
        invariant nextFetchOffset == Past(old(nextFetchOffset), got)
        decreases |Remaining()|
      {
        var r := NextRecord();
        if r.None? {
          SplitAt(all, got, []);
          return;
        }
        JoinRecords(got, [r.value], Remaining());
        got := got + [r.value];
      }
      SplitAt(all, got, Remaining());
    }

    /** One more portion of what is left of `all`. */
    method TakeMore(n: nat, got0: seq<Record>, ghost all: seq<Record>) returns (got: seq<Record>)
      requires Valid() && |got0| <= |all| && got0 == all[..|got0|] && Remaining() == all[|got0|..]
      modifies this
      ensures Valid() && |got| == Min(|got0| + n, |all|) && got == all[..|got|] && Remaining() == all[|got|..]
    {
      got := got0;
      if !drained {
        var part := Take(Some(n));
        PortionsJoin(all, |got0|, n, part);
        got := got0 + part;
      }
    }

    /** Any number of portions of any sizes: together they are one read of as many records. */
    method TakeAll(ns: seq<nat>) returns (got: seq<Record>)
      requires Valid()
      modifies this
      ensures Valid()
      ensures got == old(Remaining())[..Min(Sum(ns), |old(Remaining())|)]
      ensures got + Remaining() == old(Remaining())
    {
      got := [];
      ghost var all := Remaining();
      for k := 0 to |ns|
        invariant Valid() && |got| == Min(Sum(ns[..k]), |all|)
        invariant got == all[..|got|] && Remaining() == all[|got|..]
      {
        assert Sum(ns[..k + 1]) == Sum(ns[..k]) + ns[k] by { assert ns[..k + 1][..k] == ns[..k]; }
        got := TakeMore(ns[k], got, all);
      }
      assert ns[..|ns|] == ns;
    }
  }

  // ----- portions of a response to a well-formed log -----------------------------------

  /** A portion of at most n records from position `next`, and the position after it. */
  function Portion(truth: seq<Record>, next: int, end: int, n: nat): (seq<Record>, int) {
    var w := Window(truth, next, end);
    if n > |w| then (w, end) else (w[..n], if n == 0 then next else w[n - 1].offset + 1)
  }

  /** The portion is exactly what lies between the old and the new position, and what is left lies after it. */
  lemma PortionIsWindow(truth: seq<Record>, next: int, end: int, n: nat)
    requires Ascending(truth) && next <= end
    ensures var (got, next') := Portion(truth, next, end, n);
            && next <= next' <= end && got == Window(truth, next, next')
            && Window(truth, next', end) == Window(truth, next, end)[|got|..]
            && (forall i :: 0 <= i < |got| ==> got[i].offset < next')
            && (forall i :: 0 <= i < |Window(truth, next', end)| ==> next' <= Window(truth, next', end)[i].offset)
  {
    var a, b := Before(truth, next), Before(truth, end);
    BeforeGrows(truth, next, end);
    if n > b - a {
      PortionIsAll(truth, next, end);
    } else if n > 0 {
      PortionIsPart(truth, next, end, n);
    } else {
      PortionIsNone(truth, next, end);
    }
  }

  lemma PortionIsAll(truth: seq<Record>, next: int, end: int)
    requires Ascending(truth) && next <= end
    ensures Window(truth, end, end) == []
    ensures forall i :: 0 <= i < |Window(truth, next, end)| ==> Window(truth, next, end)[i].offset < end
  {
    BeforeGrows(truth, next, end);
    BeforeSplits(truth, end);
  }

  lemma PortionIsNone(truth: seq<Record>, next: int, end: int)
    requires Ascending(truth) && next <= end
    ensures Window(truth, next, next) == []
    ensures forall i :: 0 <= i < |Window(truth, next, end)| ==> next <= Window(truth, next, end)[i].offset
  {
    BeforeGrows(truth, next, end);
    BeforeSplits(truth, next);
  }

  lemma PortionIsPart(truth: seq<Record>, next: int, end: int, n: nat)
    requires Ascending(truth) && next <= end && 0 < n <= |Window(truth, next, end)|
    ensures var w := Window(truth, next, end);
            var next' := w[n - 1].offset + 1;
            && next <= next' <= end && w[..n] == Window(truth, next, next') && Window(truth, next', end) == w[n..]
            && (forall i :: 0 <= i < n ==> w[i].offset < next')
            && (forall i :: n <= i < |w| ==> next' <= w[i].offset)
  {
    var a, b := Before(truth, next), Before(truth, end);
    BeforeSplits(truth, next);
    BeforeSplits(truth, end);
    var next' := truth[a + n - 1].offset + 1;
    BeforeIs(truth, next', a + n);
    assert truth[a + n - 1].offset < end;
    CutSlice(truth, a, b, n);
    AroundCut(truth, a, b, n);
  }

  lemma CutSlice(truth: seq<Record>, a: nat, b: nat, n: nat)
    requires a + n <= b <= |truth|
    ensures truth[a..b][..n] == truth[a..a + n] && truth[a..b][n..] == truth[a + n..b]
  {
  }

  lemma AroundCut(truth: seq<Record>, a: nat, b: nat, n: nat)
    requires Ascending(truth) && 0 < n && a + n <= b <= |truth|
    ensures forall i :: 0 <= i < n ==> truth[a..b][i].offset < truth[a..b][n - 1].offset + 1
    ensures forall i :: n <= i < b - a ==> truth[a..b][n - 1].offset + 1 <= truth[a..b][i].offset
  {
  }
}
