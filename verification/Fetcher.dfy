/**
 * SubscriptionState and the poll path of Fetcher, updated in place: each method is proved
 * against the consumer model.
 */
module Fetching {
  import opened Common
  import opened PartitionLog
  import opened PartitionReader
  import opened ConsumerModel
  import opened ConsumerPolls

  class SubscriptionState {
    var assignment: map<TopicPartition, PartitionState>
    ghost var starts: map<TopicPartition, int>
    ghost var returned: map<TopicPartition, seq<Record>>

    ghost predicate Shows(s: Consumer)
      reads this
    {
      assignment == s.assignment && starts == s.starts && returned == s.returned
    }

    constructor ()
      ensures Shows(Start())
    {
      assignment, starts, returned := map[], map[], map[];
    }

    predicate IsFetchable(tp: TopicPartition)
      reads this
    {
      tp in assignment && !assignment[tp].paused && assignment[tp].position.Some?
    }

    function Position(tp: TopicPartition): Option<int>
      reads this
    {
      if tp in assignment then assignment[tp].position else None
    }

    method Pause(tp: TopicPartition, ghost logs: Logs, ghost committed: bool, ghost s: Consumer) returns (known: bool)
      requires Shows(s)
      modifies this`assignment
      ensures known <==> tp in old(assignment)
      ensures Shows(if known then Step(logs, committed, s, Event.Pause(tp)) else s)
      ensures assignment == if known then old(assignment)[tp := old(assignment)[tp].(paused := true)]
              else old(assignment)
    {
      known := tp in assignment;
      if known { assignment := assignment[tp := assignment[tp].(paused := true)]; }
    }

    method Resume(tp: TopicPartition, ghost logs: Logs, ghost committed: bool, ghost s: Consumer) returns (known: bool)
      requires Shows(s)
      modifies this`assignment
      ensures known <==> tp in old(assignment)
      ensures Shows(if known then Step(logs, committed, s, Event.Resume(tp)) else s)
      ensures assignment == if known then old(assignment)[tp := old(assignment)[tp].(paused := false)]
              else old(assignment)
    {
      known := tp in assignment;
      if known { assignment := assignment[tp := assignment[tp].(paused := false)]; }
    }

    /** seek also ends a pending offset reset; history starts anew. */
    method Seek(tp: TopicPartition, offset: int, ghost logs: Logs, ghost committed: bool, ghost s: Consumer)
      returns (known: bool)
      requires Shows(s)
      modifies this
      ensures known <==> tp in old(assignment)
      ensures assignment ==
                if known then old(assignment)[tp := PartitionState(Some(offset), old(assignment)[tp].paused, false)]
                else old(assignment)
      ensures Shows(if known then Step(logs, committed, s, Event.Seek(tp, offset)) else s)
    {
      known := tp in assignment;
      if known {
        assignment := assignment[tp := assignment[tp].(position := Some(offset), awaitingReset := false)];
        starts, returned := starts[tp := offset], returned[tp := []];
      }
    }

    method RequestOffsetReset(tp: TopicPartition, ghost logs: Logs, ghost committed: bool, ghost s: Consumer)
      returns (known: bool)
      requires Shows(s)
      modifies this`assignment
      ensures known <==> tp in old(assignment)
      ensures Shows(if known then Step(logs, committed, s, Event.RequestReset(tp)) else s)
      ensures assignment ==
                if known then old(assignment)[tp := old(assignment)[tp].(position := None, awaitingReset := true)]
                else old(assignment)
    {
      known := tp in assignment;
      if known { assignment := assignment[tp := assignment[tp].(position := None, awaitingReset := true)]; }
    }

    /** assign_from_user keeps the state of partitions that stay assigned; the coordinator's assignment does not. */
    method Assign(tps: set<TopicPartition>, fromUser: bool, ghost logs: Logs, ghost committed: bool, ghost s: Consumer)
      requires Shows(s)
      modifies this`assignment
      ensures Shows(Step(logs, committed, s, if fromUser then AssignUser(tps) else AssignSubscribed(tps)))
      ensures assignment.Keys == tps
      ensures forall tp :: tp in tps ==>
              assignment[tp] == if fromUser && tp in old(assignment) then old(assignment)[tp] else NEW_PARTITION
    {
      var states: map<TopicPartition, PartitionState> := map[];
      var todo := tps;
      while todo != {}
        invariant todo <= tps && states.Keys == tps - todo && assignment == old(assignment)
        invariant forall tp :: tp in states ==>
                  states[tp] == if fromUser && tp in assignment then assignment[tp] else NEW_PARTITION
        decreases |todo|
      {
        var tp := Next(todo);
        todo := todo - {tp};
        states := states[tp := if fromUser && tp in assignment then assignment[tp] else NEW_PARTITION];
      }
      assert states.Keys == tps;
      assignment := states;
      AssignIs(logs, committed, s, tps, fromUser, states);
    }

    /** A poll moves the position of a partition on. */
    method Advance(tp: TopicPartition, position: int, ghost got: seq<Record>)
      requires tp in assignment
      modifies this`assignment, this`returned
      ensures assignment == old(assignment)[tp := old(assignment)[tp].(position := Some(position))]
      ensures returned == old(returned)[tp := (if tp in old(returned) then old(returned)[tp] else []) + got]
    {
      assignment := assignment[tp := assignment[tp].(position := Some(position))];
      returned := returned[tp := (if tp in returned then returned[tp] else []) + got];
    }
  }

  /** Reading the defaultdict of drained records. */
  function Held(records: map<TopicPartition, seq<Record>>, tp: TopicPartition): seq<Record> {
    if tp in records then records[tp] else []
  }

  /** The dictionary holds each partition's records in the order they were handed out. */
  ghost predicate Grouped(records: map<TopicPartition, seq<Record>>, out: seq<(TopicPartition, Record)>) {
    forall tp: TopicPartition {:trigger Held(records, tp)} :: Held(records, tp) == Project(out, tp)
  }

  class Fetcher {
    const subscriptions: SubscriptionState
    const committed: bool
    var completedFetches: seq<CompletedFetch>
    var nextPartitionRecords: PartitionRecords?

    constructor (subscriptions: SubscriptionState, committed: bool)
      ensures this.subscriptions == subscriptions && this.committed == committed
      ensures completedFetches == [] && nextPartitionRecords == null
    {
      this.subscriptions, this.committed := subscriptions, committed;
      completedFetches, nextPartitionRecords := [], null;
    }

    /** The reader hands out the rest of the log's window up to the response's end. */
    ghost predicate Reads(logs: Logs, part: PartitionRecords, r: Reading)
      reads part
    {
      && part.Valid() && part.tp == r.tp && part.nextFetchOffset == r.next
      && part.Remaining() == Window(logs.Truth(committed, r.tp), r.next, r.end)
      && (part.batches == [] ==> r.end == r.next)
      && (part.batches != [] ==>
            part.batches[|part.batches| - 1].magic == 2 && r.end == part.batches[|part.batches| - 1].last + 1)
    }

    ghost predicate ShowsReading(logs: Logs, s: Consumer)
      reads this, nextPartitionRecords
    {
      if nextPartitionRecords == null || nextPartitionRecords.drained then s.current.None?
      else s.current.Some? && Reads(logs, nextPartitionRecords, s.current.value)
    }

    ghost predicate Shows(logs: Logs, s: Consumer)
      reads this, subscriptions, nextPartitionRecords
    {
      subscriptions.Shows(s) && completedFetches == s.completed && ShowsReading(logs, s)
    }

    /** A response arrives, whenever it was asked for. */
    method Receive(f: CompletedFetch, ghost logs: Logs, ghost s: Consumer)
      requires Shows(logs, s)
      modifies this`completedFetches
      ensures completedFetches == old(completedFetches) + [f]
      ensures Faithful(logs, f) ==> Shows(logs, Step(logs, committed, s, Response(f)))
    {
      completedFetches := completedFetches + [f];
    }

    method OpenResponse(f: CompletedFetch, ghost logs: Logs) returns (part: PartitionRecords)
      requires logs.Ok() && Faithful(logs, f) && f.error.None?
      ensures fresh(part) && !part.drained && Reads(logs, part, Reading(f.tp, f.fetchOffset, f.End()))
    {
      FaithfulIsWindow(logs, committed, f);
      part := new PartitionRecords(f.tp, f.fetchOffset, f.batches, committed, f.aborted);
    }

    /** The response is of a partition that may be fetched, and starts at its position. */
    predicate IsNext(f: CompletedFetch)
      reads subscriptions
    {
      subscriptions.IsFetchable(f.tp) && subscriptions.assignment[f.tp].position == Some(f.fetchOffset)
    }

    /**
     * The oldest response is taken off. It is read if and only if it is next in line and no error, the
     * position is given up if and only if it is next in line and out of range, and any other is dropped.
     */
    method ParseFetchedData(ghost logs: Logs, ghost s: Consumer)
      requires Shows(logs, s) && logs.Ok() && Invariant(logs, committed, s) && s.current.None? && completedFetches != []
      modifies this, subscriptions`assignment
      ensures Shows(logs, Parse(s))
      ensures completedFetches == old(completedFetches)[1..]
      ensures nextPartitionRecords != null <==> old(IsNext(completedFetches[0]) && completedFetches[0].error.None?)
      ensures nextPartitionRecords == null || fresh(nextPartitionRecords)
      ensures var f := old(completedFetches[0]);
              subscriptions.assignment ==
                if old(IsNext(completedFetches[0])) && f.error == Some(OffsetOutOfRange)
                then old(subscriptions.assignment)[f.tp := PartitionState(None, false, true)]
                else old(subscriptions.assignment)
    {
      var f := completedFetches[0];
      completedFetches := completedFetches[1..];
      nextPartitionRecords := null;
      if !IsNext(f) { return; }
      if f.error.None? {
        nextPartitionRecords := OpenResponse(f, logs);
      } else if f.error == Some(OffsetOutOfRange) {
        var known := subscriptions.RequestOffsetReset(f.tp, logs, committed, s);
      }
    }

    /** take() on the response being read: the portion of the log's window, and the rest of it after. */
    method TakePortion(part: PartitionRecords, n: nat, ghost logs: Logs, ghost r: Reading) returns (got: seq<Record>)
      requires Reads(logs, part, r) && !part.drained && Ascending(logs.Truth(committed, r.tp)) && r.next <= r.end
      modifies part
      ensures (got, part.nextFetchOffset) == Portion(logs.Truth(committed, r.tp), r.next, r.end, n)
      ensures part.drained <==> n > |got|
      ensures !part.drained ==> Reads(logs, part, r.(next := part.nextFetchOffset))
    {
      PortionIsWindow(logs.Truth(committed, r.tp), r.next, r.end, n);
      EmptyWindow(logs.Truth(committed, r.tp), r.next);
      got := part.Take(Some(n));
      TakenIsPortion(logs.Truth(committed, r.tp), r.next, r.end, n, got);
    }

    /** _append of a response that is next in line. */
    method AppendInLine(n: nat, ghost logs: Logs, ghost s: Consumer) returns (got: seq<Record>)
      requires Shows(logs, s) && logs.Ok() && s.current.Some? && s.current.value.next <= s.current.value.end
      requires InLine(s)
      modifies nextPartitionRecords, subscriptions
      ensures nextPartitionRecords == old(nextPartitionRecords)
      ensures Shows(logs, ConsumerModel.Append(logs, committed, s, n).0)
      ensures got == ConsumerModel.Append(logs, committed, s, n).1
    {
      var part := nextPartitionRecords;
      TruthAscends(logs, committed, part.tp);
      got := TakePortion(part, n, logs, s.current.value);
      subscriptions.Advance(part.tp, part.nextFetchOffset, got);
    }

    /** _append: hand out a portion if it is next in line, else give the response up. */
    method AppendRecords(n: nat, ghost logs: Logs, ghost s: Consumer) returns (tp: TopicPartition, got: seq<Record>)
      requires Shows(logs, s) && logs.Ok() && s.current.Some? && s.current.value.next <= s.current.value.end
      modifies nextPartitionRecords, subscriptions
      ensures nextPartitionRecords == old(nextPartitionRecords)
      ensures Shows(logs, ConsumerModel.Append(logs, committed, s, n).0)
      ensures got == ConsumerModel.Append(logs, committed, s, n).1
      ensures tp == s.current.value.tp
    {
      var part := nextPartitionRecords;
      tp := part.tp;
      if subscriptions.IsFetchable(tp) && subscriptions.assignment[tp].position == Some(part.nextFetchOffset) {
        got := AppendInLine(n, logs, s);
      } else {
        part.drained := true;
        got := [];
      }
    }

    /** One turn of fetched_records that takes up the oldest response. */
    method TakeUp(n: nat, ghost out: seq<(TopicPartition, Record)>, ghost logs: Logs, ghost s: Consumer)
      requires Shows(logs, s) && logs.Ok() && Invariant(logs, committed, s) && n > 0
      requires s.current.None? && completedFetches != []
      modifies this, subscriptions`assignment
      ensures Shows(logs, Parse(s)) && Invariant(logs, committed, Parse(s)) && Work(Parse(s)) < Work(s)
      ensures PollFrom(logs, committed, Parse(s), n, out) == PollFrom(logs, committed, s, n, out)
      ensures nextPartitionRecords == null || fresh(nextPartitionRecords)
    {
      ParseKeeps(logs, committed, s);
      PollParses(logs, committed, s, n, out);
      ParseFetchedData(logs, s);
    }

    /** One turn of fetched_records that hands out a portion. */
    method HandOut(records0: map<TopicPartition, seq<Record>>, n: nat, ghost out0: seq<(TopicPartition, Record)>,
            ghost logs: Logs, ghost s: Consumer)
      returns (records: map<TopicPartition, seq<Record>>, count: nat, ghost out: seq<(TopicPartition, Record)>)
      requires Shows(logs, s) && logs.Ok() && Invariant(logs, committed, s) && s.current.Some?
      requires Grouped(records0, out0)
      modifies nextPartitionRecords, subscriptions
      ensures nextPartitionRecords == old(nextPartitionRecords)
      ensures var (s1, got) := ConsumerModel.Append(logs, committed, s, n);
              Shows(logs, s1) && count == |got| && out == out0 + Tagged(s.current.value.tp, got)
      ensures Grouped(records, out)
    {
      var tp, got := AppendRecords(n, logs, s);
      records := if got != [] then records0[tp := Held(records0, tp) + got] else records0;
      GroupPortion(records0, records, out0, tp, got);
      count, out := |got|, out0 + Tagged(tp, got);
    }

    /** One turn of fetched_records; done tells that nothing is left to read. */
    method Turn(records0: map<TopicPartition, seq<Record>>, n0: nat, ghost out0: seq<(TopicPartition, Record)>,
            ghost logs: Logs, ghost s0: Consumer)
      returns (done: bool, records: map<TopicPartition, seq<Record>>, n: nat, ghost out: seq<(TopicPartition, Record)>,
            ghost s: Consumer)
      requires Shows(logs, s0) && logs.Ok() && Invariant(logs, committed, s0) && n0 > 0 && Grouped(records0, out0)
      modifies this, nextPartitionRecords, subscriptions
      ensures done <==> s0.current.None? && s0.completed == []
      ensures done ==> s == s0
      ensures !done ==> Work(s) < Work(s0) || (Work(s) == Work(s0) && n < n0)
      ensures Shows(logs, s) && Invariant(logs, committed, s) && Grouped(records, out) && n + |out| == n0 + |out0|
      ensures PollFrom(logs, committed, s, n, out) == PollFrom(logs, committed, s0, n0, out0)
      ensures nextPartitionRecords == null || nextPartitionRecords == old(nextPartitionRecords)
              || fresh(nextPartitionRecords)
    {
      done, records, n, out, s := false, records0, n0, out0, s0;
      if nextPartitionRecords == null || nextPartitionRecords.drained {
        if completedFetches == [] {
          done := true;
        } else {
          TakeUp(n0, out0, logs, s0);
          s := Parse(s0);
        }
      } else {
        AppendKeeps(logs, committed, s0, n0);
        AppendUsesUp(logs, committed, s0, n0);
        PollAppends(logs, committed, s0, n0, out0);
        s := ConsumerModel.Append(logs, committed, s0, n0).0;
        var count;
        records, count, out := HandOut(records0, n0, out0, logs, s0);
        n := n0 - count;
      }
    }

    /**
     * fetched_records: the loop ends and returns at most maxRecords records, by partition, in
     * the order they were handed out. `partial` tells whether responses are left. If it returns fewer
     * than maxRecords, every position is where the responses at hand lead and the records are all
     * those of the log from the old positions to there.
     */
    method FetchedRecords(maxRecords: nat, ghost logs: Logs, ghost s: Consumer)
      returns (records: map<TopicPartition, seq<Record>>, partial: bool, ghost out: seq<(TopicPartition, Record)>)
      requires Shows(logs, s) && logs.Ok() && Invariant(logs, committed, s)
      modifies this, nextPartitionRecords, subscriptions
      ensures Shows(logs, Poll(logs, committed, s, maxRecords).0) && out == Poll(logs, committed, s, maxRecords).1
      ensures |out| <= maxRecords && Grouped(records, out)
      ensures partial <==> completedFetches != []
      ensures |out| < maxRecords ==>
              && !partial
              && forall tp: TopicPartition {:trigger Held(records, tp)} ::
                   Arrives(logs.Truth(committed, tp), s, subscriptions.Position(tp), Held(records, tp), tp)
    {
      records, out := map[], [];
      var remaining: nat := maxRecords;
      ghost var s1, goal := s, Poll(logs, committed, s, maxRecords);
      PollStarts(logs, committed, s, maxRecords);
      var done := false;
      while remaining > 0 && !done
        invariant Shows(logs, s1) && Invariant(logs, committed, s1) && Grouped(records, out)
        invariant PollFrom(logs, committed, s1, remaining, out) == goal && remaining + |out| == maxRecords
        invariant done ==> s1.current.None? && s1.completed == []
        invariant nextPartitionRecords == null || nextPartitionRecords == old(nextPartitionRecords)
                  || fresh(nextPartitionRecords)
        decreases !done, Work(s1), remaining
      {
        done, records, remaining, out, s1 := Turn(records, remaining, out, logs, s1);
      }
      PollEnds(logs, committed, s1, remaining, out);
      partial := completedFetches != [];
      forall tp: TopicPartition | |out| < maxRecords
        ensures Arrives(logs.Truth(committed, tp), s, subscriptions.Position(tp), Held(records, tp), tp)
      {
        PollArrives(logs, committed, s, maxRecords, tp);
      }
    }
  }

  lemma AssignIs(logs: Logs, committed: bool, s: Consumer, tps: set<TopicPartition>, fromUser: bool,
          states: map<TopicPartition, PartitionState>)
    requires states.Keys == tps
    requires forall tp :: tp in tps ==>
             states[tp] == if fromUser && tp in s.assignment then s.assignment[tp] else NEW_PARTITION
    ensures Step(logs, committed, s, if fromUser then AssignUser(tps) else AssignSubscribed(tps))
              == s.(assignment := states)
  {
  }

  lemma EmptyWindow(truth: seq<Record>, x: int)
    ensures Window(truth, x, x) == []
  {
  }

  lemma TakenIsPortion(truth: seq<Record>, next: int, end: int, n: nat, got: seq<Record>)
    requires var w := Window(truth, next, end); got == if n > |w| then w else w[..n]
    ensures Portion(truth, next, end, n)
              == (got, if n > |Window(truth, next, end)| then end else PartitionReader.Past(next, got))
  {
  }

  lemma GroupPortion(records0: map<TopicPartition, seq<Record>>, records: map<TopicPartition, seq<Record>>,
          out: seq<(TopicPartition, Record)>, of: TopicPartition, got: seq<Record>)
    requires Grouped(records0, out) && records == if got != [] then records0[of := Held(records0, of) + got]
             else records0
    ensures Grouped(records, out + Tagged(of, got))
  {
    forall tp: TopicPartition ensures Held(records, tp) == Project(out + Tagged(of, got), tp) {
      assert Held(records0, tp) == Project(out, tp);
      ProjectAppend(out, Tagged(of, got), tp);
      ProjectTagged(got, of, tp);
    }
  }
}
