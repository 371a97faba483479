/**
 * The consumer's positions: how polls, seeks, pauses, reassignments and fetch responses of any
 * age move them, and what has been handed to the application since the last position reset.
 */
module ConsumerModel {
  import opened Common
  import opened PartitionLog
  import opened PartitionReader

  /** The logs the brokers keep, in message format v2, and their aborted transactions. */
  datatype Logs = Logs(batches: map<TopicPartition, seq<Batch>>, txns: map<TopicPartition, set<Transaction>>)
  {
    function Log(tp: TopicPartition): seq<Batch> { if tp in batches then batches[tp] else [] }

    function Txns(tp: TopicPartition): set<Transaction> { if tp in txns then txns[tp] else {} }

    ghost predicate Ok() {
      forall tp: TopicPartition ::
        LogOk(Log(tp)) && TransactionsOk(Log(tp), Txns(tp)) && forall i :: 0 <= i < |Log(tp)| ==> Log(tp)[i].magic == 2
    }

    /** Everything a consumer of the partition may ever see. */
    ghost function Truth(committed: bool, tp: TopicPartition): seq<Record> {
      VisibleRecords(committed, Txns(tp), Log(tp))
    }
  }

  datatype FetchError = OffsetOutOfRange | RetriableError

  datatype CompletedFetch = CompletedFetch(
    tp: TopicPartition,
    fetchOffset: int,
    error: Option<FetchError>,
    batches: seq<Batch>,
    aborted: seq<AbortedTransaction>)
  {
    /** The offset after the response's last batch. */
    function End(): int { if batches == [] then fetchOffset else batches[|batches| - 1].last + 1 }
  }

  /** The response is a broker's answer to a fetch at that offset, whenever that was asked. */
  ghost predicate Faithful(logs: Logs, f: CompletedFetch) {
    f.error.None? ==>
      exists lo: nat, hi: nat ::
        Answers(logs.Log(f.tp), logs.Txns(f.tp), f.fetchOffset, lo, hi, f.aborted)
          && f.batches == logs.Log(f.tp)[lo..hi]
  }

  /** What the reader of a faithful response hands out is the window of the log up to the response's end. */
  lemma FaithfulIsWindow(logs: Logs, committed: bool, f: CompletedFetch)
    requires logs.Ok() && Faithful(logs, f) && f.error.None?
    ensures f.fetchOffset <= f.End()
    ensures Drop(true, Output(committed, Filter(Sorted(f.aborted), {}), f.batches), f.fetchOffset)
              == Window(logs.Truth(committed, f.tp), f.fetchOffset, f.End())
    ensures f.batches != [] ==> f.batches[|f.batches| - 1].magic == 2
  {
    var log, txns := logs.Log(f.tp), logs.Txns(f.tp);
    var lo: nat, hi: nat :| Answers(log, txns, f.fetchOffset, lo, hi, f.aborted) && f.batches == log[lo..hi];
    FilterIsExact(committed, log, txns, f.fetchOffset, lo, hi, f.aborted);
    SegmentEnd(log, f.batches, lo, hi);
  }

  lemma SegmentEnd(log: seq<Batch>, batches: seq<Batch>, lo: nat, hi: nat)
    requires lo <= hi <= |log| && batches == log[lo..hi]
    ensures if lo < hi then batches != [] && batches[|batches| - 1] == log[hi - 1] else batches == []
  {
  }

  // ----- state -------------------------------------------------------------------------

  /** TopicPartitionState */
  datatype PartitionState = PartitionState(position: Option<int>, paused: bool, awaitingReset: bool)

  const NEW_PARTITION := PartitionState(None, false, false)

  /** The response being handed out: the position of the next record, and where it ends. */
  datatype Reading = Reading(tp: TopicPartition, next: int, end: int)

  datatype Consumer = Consumer(
    assignment: map<TopicPartition, PartitionState>,
    completed: seq<CompletedFetch>,
    current: Option<Reading>,
    // history, since the partition's position was last set from outside
    starts: map<TopicPartition, int>,
    returned: map<TopicPartition, seq<Record>>)

  function Start(): Consumer {
    Consumer(map[], [], None, map[], map[])
  }

  predicate Fetchable(s: Consumer, tp: TopicPartition) {
    tp in s.assignment && !s.assignment[tp].paused && s.assignment[tp].position.Some?
  }

  function Returned(s: Consumer, tp: TopicPartition): seq<Record> {
    if tp in s.returned then s.returned[tp] else []
  }

  // ----- fetched_records ---------------------------------------------------------------

  /** _parse_fetched_data of the oldest response; a default reset policy is configured. */
  function Parse(s: Consumer): Consumer
    requires s.completed != []
  {
    var f, s1 := s.completed[0], s.(completed := s.completed[1..]);
    if !Fetchable(s, f.tp) then s1
    else if s.assignment[f.tp].position.value != f.fetchOffset then s1
    else match f.error
      case None => s1.(current := Some(Reading(f.tp, f.fetchOffset, f.End())))
      case Some(OffsetOutOfRange) =>
        s1.(assignment := s.assignment[f.tp := s.assignment[f.tp].(position := None, awaitingReset := true)])
      case Some(RetriableError) => s1
  }

  /** _append is allowed to take from the response. */
  predicate InLine(s: Consumer)
    requires s.current.Some?
  {
    Fetchable(s, s.current.value.tp) && s.assignment[s.current.value.tp].position == Some(s.current.value.next)
  }

  /** _append: a portion of the current response, or nothing if it is no longer next in line. */
  ghost function Append(logs: Logs, committed: bool, s: Consumer, n: nat): (Consumer, seq<Record>)
    requires s.current.Some?
  {
    var r := s.current.value;
    if !InLine(s) then (s.(current := None), [])
    else
      var (got, next) := Portion(logs.Truth(committed, r.tp), r.next, r.end, n);
      (s.(assignment := s.assignment[r.tp := s.assignment[r.tp].(position := Some(next))],
          current := if n > |got| then None else Some(r.(next := next)),
          returned := s.returned[r.tp := Returned(s, r.tp) + got]),
       got)
  }

  function Tagged(tp: TopicPartition, rs: seq<Record>): seq<(TopicPartition, Record)> {
    seq(|rs|, i requires 0 <= i < |rs| => (tp, rs[i]))
  }

  /** The loop of fetched_records; it ends because each turn uses up a response or the allowance. */
  ghost function Poll(logs: Logs, committed: bool, s: Consumer, n: nat): (Consumer, seq<(TopicPartition, Record)>)
    decreases Work(s), n
  {
    if n == 0 then (s, [])
    else if s.current.None? then
      if s.completed == [] then (s, []) else Poll(logs, committed, Parse(s), n)
    else
      var (s1, got) := Append(logs, committed, s, n);
      var (s2, more) := Poll(logs, committed, s1, n - |got|);
      (s2, Tagged(s.current.value.tp, got) + more)
  }

  /** Responses still to be read, the one being read counted half. */
  function Work(s: Consumer): nat {
    2 * |s.completed| + if s.current.Some? then 1 else 0
  }

  /** How a poll ends that has handed out `out` and is in state s with n records still allowed. */
  ghost function PollFrom(logs: Logs, committed: bool, s: Consumer, n: nat, out: seq<(TopicPartition, Record)>)
    : (Consumer, seq<(TopicPartition, Record)>)
  {
    var (s1, more) := Poll(logs, committed, s, n);
    (s1, out + more)
  }

  lemma PollParses(logs: Logs, committed: bool, s: Consumer, n: nat, out: seq<(TopicPartition, Record)>)
    requires n > 0 && s.current.None? && s.completed != []
    ensures PollFrom(logs, committed, s, n, out) == PollFrom(logs, committed, Parse(s), n, out)
  {
  }

  lemma PollAppends(logs: Logs, committed: bool, s: Consumer, n: nat, out: seq<(TopicPartition, Record)>)
    requires n > 0 && s.current.Some?
    ensures var (s1, got) := Append(logs, committed, s, n);
            |got| <= n && PollFrom(logs, committed, s, n, out) ==
              PollFrom(logs, committed, s1, n - |got|, out + Tagged(s.current.value.tp, got))
  {
    var (s1, got) := Append(logs, committed, s, n);
    var (s2, more) := Poll(logs, committed, s1, n - |got|);
    var first := Tagged(s.current.value.tp, got);
    assert Poll(logs, committed, s, n) == (s2, first + more);
    assert out + (first + more) == (out + first) + more;
  }

  lemma PollEnds(logs: Logs, committed: bool, s: Consumer, n: nat, out: seq<(TopicPartition, Record)>)
    requires n == 0 || (s.current.None? && s.completed == [])
    ensures PollFrom(logs, committed, s, n, out) == (s, out)
  {
    assert Poll(logs, committed, s, n) == (s, []);
    assert out + [] == out;
  }

  lemma PollStarts(logs: Logs, committed: bool, s: Consumer, n: nat)
    ensures PollFrom(logs, committed, s, n, []) == Poll(logs, committed, s, n)
  {
    assert [] + Poll(logs, committed, s, n).1 == Poll(logs, committed, s, n).1;
  }

  // ----- events ------------------------------------------------------------------------

  datatype Event =
    | Response(fetch: CompletedFetch)                     // of any age
    | PollRecords(max: nat)
    | Pause(tp: TopicPartition)
    | Resume(tp: TopicPartition)
    | Seek(tp: TopicPartition, offset: int)               // by the user, or an offset reset that is still wanted
    | RequestReset(tp: TopicPartition)
    | AssignUser(tps: set<TopicPartition>)
    | AssignSubscribed(tps: set<TopicPartition>)

  ghost predicate Enabled(logs: Logs, s: Consumer, e: Event) {
    match e
    case Response(f) => Faithful(logs, f)
    case PollRecords(_) => true
    case Pause(tp) => tp in s.assignment
    case Resume(tp) => tp in s.assignment
    case Seek(tp, _) => tp in s.assignment
    case RequestReset(tp) => tp in s.assignment
    case AssignUser(_) => true
    case AssignSubscribed(_) => true
  }

  function SeekTo(s: Consumer, tp: TopicPartition, offset: int): Consumer
    requires tp in s.assignment
  {
    s.(assignment := s.assignment[tp := s.assignment[tp].(position := Some(offset), awaitingReset := false)],
       starts := s.starts[tp := offset],
       returned := s.returned[tp := []])
  }

  ghost function Step(logs: Logs, committed: bool, s: Consumer, e: Event): Consumer
    requires Enabled(logs, s, e)
  {
    match e
    case Response(f) => s.(completed := s.completed + [f])
    case PollRecords(n) => Poll(logs, committed, s, n).0
    case Pause(tp) => s.(assignment := s.assignment[tp := s.assignment[tp].(paused := true)])
    case Resume(tp) => s.(assignment := s.assignment[tp := s.assignment[tp].(paused := false)])
    case Seek(tp, offset) => SeekTo(s, tp, offset)
    case RequestReset(tp) => s.(assignment :=
      s.assignment[tp := s.assignment[tp].(position := None, awaitingReset := true)])
    case AssignUser(tps) => s.(assignment := map tp | tp in tps :: if tp in s.assignment then s.assignment[tp]
      else NEW_PARTITION)
    case AssignSubscribed(tps) => s.(assignment := map tp | tp in tps :: NEW_PARTITION)
  }

  ghost predicate ValidRun(logs: Logs, committed: bool, s: Consumer, es: seq<Event>)
    decreases es
  {
    es == [] || (Enabled(logs, s, es[0]) && ValidRun(logs, committed, Step(logs, committed, s, es[0]), es[1..]))
  }

  ghost function Run(logs: Logs, committed: bool, s: Consumer, es: seq<Event>): Consumer
    requires ValidRun(logs, committed, s, es)
    decreases es
  {
    if es == [] then s else Run(logs, committed, Step(logs, committed, s, es[0]), es[1..])
  }

  // ----- the invariant -----------------------------------------------------------------

  /** The partition's records handed out since its start are all there are up to its position. */
  ghost predicate Accounted(logs: Logs, committed: bool, s: Consumer, tp: TopicPartition) {
    tp in s.assignment && s.assignment[tp].position.Some? ==>
      && tp in s.starts && s.starts[tp] <= s.assignment[tp].position.value
      && Returned(s, tp) == Window(logs.Truth(committed, tp), s.starts[tp], s.assignment[tp].position.value)
  }

  ghost predicate Invariant(logs: Logs, committed: bool, s: Consumer) {
    && (forall tp: TopicPartition :: Accounted(logs, committed, s, tp))
    && (forall i :: 0 <= i < |s.completed| ==> Faithful(logs, s.completed[i]))
    && (s.current.Some? ==> s.current.value.next <= s.current.value.end)
  }

  lemma TruthAscends(logs: Logs, committed: bool, tp: TopicPartition)
    requires logs.Ok()
    ensures Ascending(logs.Truth(committed, tp))
  {
    VisibleAscend(committed, logs.Txns(tp), logs.Log(tp));
  }

  lemma ParseKeeps(logs: Logs, committed: bool, s: Consumer)
    requires logs.Ok() && Invariant(logs, committed, s) && s.completed != []
    ensures Invariant(logs, committed, Parse(s))
  {
    var f := s.completed[0];
    if f.error.None? { FaithfulIsWindow(logs, committed, f); }
    forall tp: TopicPartition ensures Accounted(logs, committed, Parse(s), tp) {
      assert Accounted(logs, committed, s, tp);
      ParseAccounts(logs, committed, s, tp);
    }
  }

  lemma ParseAccounts(logs: Logs, committed: bool, s: Consumer, tp: TopicPartition)
    requires s.completed != [] && Accounted(logs, committed, s, tp)
    ensures Accounted(logs, committed, Parse(s), tp)
  {
  }

  lemma AppendKeeps(logs: Logs, committed: bool, s: Consumer, n: nat)
    requires logs.Ok() && Invariant(logs, committed, s) && s.current.Some?
    ensures Invariant(logs, committed, Append(logs, committed, s, n).0)
  {
    var s1 := Append(logs, committed, s, n).0;
    TruthAscends(logs, committed, s.current.value.tp);
    forall tp: TopicPartition ensures Accounted(logs, committed, s1, tp) {
      assert Accounted(logs, committed, s, tp);
      if tp == s.current.value.tp && InLine(s) {
        AppendAccounts(logs, committed, s, n);
      } else {
        AppendSparesOthers(logs, committed, s, n, tp);
      }
    }
    AppendStaysInside(logs, committed, s, n);
  }

  lemma AppendSparesOthers(logs: Logs, committed: bool, s: Consumer, n: nat, tp: TopicPartition)
    requires s.current.Some? && Accounted(logs, committed, s, tp) && (tp != s.current.value.tp || !InLine(s))
    ensures Accounted(logs, committed, Append(logs, committed, s, n).0, tp)
  {
  }

  lemma AppendStaysInside(logs: Logs, committed: bool, s: Consumer, n: nat)
    requires s.current.Some? && Ascending(logs.Truth(committed, s.current.value.tp))
    requires s.current.value.next <= s.current.value.end
    ensures var s1 := Append(logs, committed, s, n).0;
            s1.completed == s.completed && (s1.current.Some? ==> s1.current.value.next <= s1.current.value.end)
  {
    PortionIsWindow(logs.Truth(committed, s.current.value.tp), s.current.value.next, s.current.value.end, n);
  }

  lemma AppendAccounts(logs: Logs, committed: bool, s: Consumer, n: nat)
    requires s.current.Some? && InLine(s) && Ascending(logs.Truth(committed, s.current.value.tp))
    requires s.current.value.next <= s.current.value.end && Accounted(logs, committed, s, s.current.value.tp)
    ensures Accounted(logs, committed, Append(logs, committed, s, n).0, s.current.value.tp)
  {
    var r := s.current.value;
    var truth := logs.Truth(committed, r.tp);
    var (got, next) := Portion(truth, r.next, r.end, n);
    PortionIsWindow(truth, r.next, r.end, n);
    WindowsJoin(truth, s.starts[r.tp], r.next, next);
  }

  /** A portion leaves the response only if it is as large as allowed. */
  lemma AppendUsesUp(logs: Logs, committed: bool, s: Consumer, n: nat)
    requires s.current.Some?
    ensures var (s1, got) := Append(logs, committed, s, n);
            |got| <= n && (s1.current.None? || |got| == n) && s1.completed == s.completed
  {
  }

  lemma {:induction false} PollKeeps(logs: Logs, committed: bool, s: Consumer, n: nat)
    requires logs.Ok() && Invariant(logs, committed, s)
    ensures Invariant(logs, committed, Poll(logs, committed, s, n).0)
    decreases Work(s), n
  {
    if n > 0 {
      if s.current.Some? {
        AppendKeeps(logs, committed, s, n);
        AppendUsesUp(logs, committed, s, n);
        var (s1, got) := Append(logs, committed, s, n);
        PollKeeps(logs, committed, s1, n - |got|);
      } else if s.completed != [] {
        ParseKeeps(logs, committed, s);
        PollKeeps(logs, committed, Parse(s), n);
      }
    }
  }

  /** The records of one partition among those a poll hands out. */
  function Project(out: seq<(TopicPartition, Record)>, tp: TopicPartition): seq<Record> {
    if out == [] then []
    else (if out[0].0 == tp then [out[0].1] else []) + Project(out[1..], tp)
  }

  lemma {:induction false} ProjectAppend(a: seq<(TopicPartition, Record)>, b: seq<(TopicPartition, Record)>,
          tp: TopicPartition)
    ensures Project(a + b, tp) == Project(a, tp) + Project(b, tp)
    decreases |a|
  {
    if a == [] {
      assert a + b == b;
    } else {
      ProjectAppend(a[1..], b, tp);
      assert (a + b)[0] == a[0] && (a + b)[1..] == a[1..] + b;
    }
  }

  lemma {:induction false} ProjectTagged(rs: seq<Record>, of: TopicPartition, tp: TopicPartition)
    ensures Project(Tagged(of, rs), tp) == if of == tp then rs else []
    decreases |rs|
  {
    if rs != [] {
      ProjectTagged(rs[1..], of, tp);
      assert Tagged(of, rs)[1..] == Tagged(of, rs[1..]);
      assert rs == [rs[0]] + rs[1..];
    }
  }

  /** One portion: noted under its partition, and the position moves forward. */
  lemma AppendReturns(logs: Logs, committed: bool, s: Consumer, n: nat, tp: TopicPartition)
    requires s.current.Some?
    ensures var (s1, got) := Append(logs, committed, s, n);
            Returned(s1, tp) == Returned(s, tp) + Project(Tagged(s.current.value.tp, got), tp) && s1.starts == s.starts
  {
    ProjectTagged(Append(logs, committed, s, n).1, s.current.value.tp, tp);
  }

  /** At most n records were handed out between the two states, and the partition's are noted under it. */
  predicate Noted(s: Consumer, s1: Consumer, out: seq<(TopicPartition, Record)>, n: nat, tp: TopicPartition) {
    |out| <= n && Returned(s1, tp) == Returned(s, tp) + Project(out, tp) && s1.starts == s.starts
  }

  lemma NotedJoins(s: Consumer, s1: Consumer, s2: Consumer, a: seq<(TopicPartition, Record)>,
          b: seq<(TopicPartition, Record)>, n: nat, tp: TopicPartition)
    requires |a| <= n && Noted(s, s1, a, n, tp) && Noted(s1, s2, b, n - |a|, tp)
    ensures Noted(s, s2, a + b, n, tp)
  {
    ProjectAppend(a, b, tp);
  }

  /** A poll hands out at most the allowed number of records, and notes for each partition what it handed out. */
  lemma {:induction false} PollReturns(logs: Logs, committed: bool, s: Consumer, n: nat, tp: TopicPartition)
    ensures Noted(s, Poll(logs, committed, s, n).0, Poll(logs, committed, s, n).1, n, tp)
    decreases Work(s), n
  {
    if n > 0 && s.current.Some? {
      AppendUsesUp(logs, committed, s, n);
      AppendReturns(logs, committed, s, n, tp);
      var (s1, got) := Append(logs, committed, s, n);
      PollReturns(logs, committed, s1, n - |got|, tp);
      var (s2, more) := Poll(logs, committed, s1, n - |got|);
      var first := Tagged(s.current.value.tp, got);
      assert Poll(logs, committed, s, n) == (s2, first + more);
      NotedJoins(s, s1, s2, first, more, n, tp);
    } else if n > 0 && s.completed != [] {
      PollReturns(logs, committed, Parse(s), n, tp);
      assert Poll(logs, committed, s, n) == Poll(logs, committed, Parse(s), n);
    } else {
      assert Poll(logs, committed, s, n) == (s, []);
    }
  }

  /** A partition keeps its place or moves forward, or loses its position to a reset. */
  predicate Advances(s: Consumer, s1: Consumer, tp: TopicPartition) {
    && (tp in s1.assignment <==> tp in s.assignment)
    && (tp in s1.assignment && s1.assignment[tp].position.Some? ==>
          s.assignment[tp].position.Some? && s.assignment[tp].position.value <= s1.assignment[tp].position.value)
  }

  lemma {:induction false} PollAdvances(logs: Logs, committed: bool, s: Consumer, n: nat, tp: TopicPartition)
    requires logs.Ok() && Invariant(logs, committed, s)
    ensures Advances(s, Poll(logs, committed, s, n).0, tp)
    decreases Work(s), n
  {
    if n > 0 {
      if s.current.Some? {
        AppendKeeps(logs, committed, s, n);
        AppendUsesUp(logs, committed, s, n);
        AppendAdvances(logs, committed, s, n, tp);
        var (s1, got) := Append(logs, committed, s, n);
        PollAdvances(logs, committed, s1, n - |got|, tp);
      } else if s.completed != [] {
        ParseKeeps(logs, committed, s);
        PollAdvances(logs, committed, Parse(s), n, tp);
      }
    }
  }

  lemma AppendAdvances(logs: Logs, committed: bool, s: Consumer, n: nat, tp: TopicPartition)
    requires logs.Ok() && s.current.Some? && s.current.value.next <= s.current.value.end
    ensures Advances(s, Append(logs, committed, s, n).0, tp)
  {
    var r := s.current.value;
    TruthAscends(logs, committed, r.tp);
    PortionIsWindow(logs.Truth(committed, r.tp), r.next, r.end, n);
  }

  lemma StepKeepsInvariant(logs: Logs, committed: bool, s: Consumer, e: Event)
    requires logs.Ok() && Invariant(logs, committed, s) && Enabled(logs, s, e)
    ensures Invariant(logs, committed, Step(logs, committed, s, e))
  {
    if e.PollRecords? {
      PollKeeps(logs, committed, s, e.max);
    } else {
      OtherStepsKeep(logs, committed, s, e);
    }
  }

  lemma OtherStepsKeep(logs: Logs, committed: bool, s: Consumer, e: Event)
    requires logs.Ok() && Invariant(logs, committed, s) && Enabled(logs, s, e) && !e.PollRecords?
    ensures Invariant(logs, committed, Step(logs, committed, s, e))
  {
    var s1 := Step(logs, committed, s, e);
    forall tp: TopicPartition ensures Accounted(logs, committed, s1, tp) {
      assert Accounted(logs, committed, s, tp);
    }
  }

  lemma {:induction false} RunKeepsInvariant(logs: Logs, committed: bool, s: Consumer, es: seq<Event>)
    requires logs.Ok() && Invariant(logs, committed, s) && ValidRun(logs, committed, s, es)
    ensures Invariant(logs, committed, Run(logs, committed, s, es))
    decreases es
  {
    if es != [] {
      StepKeepsInvariant(logs, committed, s, es[0]);
      RunKeepsInvariant(logs, committed, Step(logs, committed, s, es[0]), es[1..]);
    }
  }

  /**
   * No gap, no repeat. In every run of responses, polls, pauses, seeks, resets and
   * reassignments: what a partition's consumer was handed since its position was last set has
   * strictly ascending offsets, and is every visible record of the log from that offset up to
   * the current position and nothing else.
   */
  lemma NoGapNoRepeat(logs: Logs, committed: bool, es: seq<Event>, tp: TopicPartition, r: Record)
    requires logs.Ok() && ValidRun(logs, committed, Start(), es)
    requires tp in Run(logs, committed, Start(), es).assignment
    requires Run(logs, committed, Start(), es).assignment[tp].position.Some?
    ensures var s := Run(logs, committed, Start(), es);
            && Ascending(Returned(s, tp)) && tp in s.starts
            && (r in Returned(s, tp) <==>
                  r in logs.Truth(committed, tp) && s.starts[tp] <= r.offset < s.assignment[tp].position.value)
  {
    RunKeepsInvariant(logs, committed, Start(), es);
    var s := Run(logs, committed, Start(), es);
    var truth := logs.Truth(committed, tp);
    TruthAscends(logs, committed, tp);
    assert Accounted(logs, committed, s, tp);
    WindowIsFilter(truth, s.starts[tp], s.assignment[tp].position.value, r);
    BeforeGrows(truth, s.starts[tp], s.assignment[tp].position.value);
  }

  /** One poll of a reachable state: what it hands out for a partition lies exactly between its old and new position. */
  lemma PollIsExact(logs: Logs, committed: bool, es: seq<Event>, n: nat, tp: TopicPartition)
    requires logs.Ok() && ValidRun(logs, committed, Start(), es)
    requires var s1 := Poll(logs, committed, Run(logs, committed, Start(), es), n).0;
             tp in s1.assignment && s1.assignment[tp].position.Some?
    ensures var s := Run(logs, committed, Start(), es);
            var (s1, out) := Poll(logs, committed, s, n);
            && |out| <= n && Advances(s, s1, tp)
            && Project(out, tp) ==
                 Window(logs.Truth(committed, tp), s.assignment[tp].position.value, s1.assignment[tp].position.value)
  {
    RunKeepsInvariant(logs, committed, Start(), es);
    var s := Run(logs, committed, Start(), es);
    PollKeeps(logs, committed, s, n);
    PollReturns(logs, committed, s, n, tp);
    PollAdvances(logs, committed, s, n, tp);
    var (s1, out) := Poll(logs, committed, s, n);
    assert Accounted(logs, committed, s, tp) && Accounted(logs, committed, s1, tp);
    TruthAscends(logs, committed, tp);
    AdvanceIsWindow(logs, committed, s, s1, out, n, tp);
  }

  lemma AdvanceIsWindow(logs: Logs, committed: bool, s: Consumer, s1: Consumer, out: seq<(TopicPartition, Record)>,
          n: nat, tp: TopicPartition)
    requires Ascending(logs.Truth(committed, tp)) && Accounted(logs, committed, s, tp)
    requires Accounted(logs, committed, s1, tp)
    requires Noted(s, s1, out, n, tp) && Advances(s, s1, tp) && tp in s1.assignment && s1.assignment[tp].position.Some?
    ensures Project(out, tp) ==
            Window(logs.Truth(committed, tp), s.assignment[tp].position.value, s1.assignment[tp].position.value)
  {
    WindowsJoin(logs.Truth(committed, tp), s.starts[tp], s.assignment[tp].position.value,
      s1.assignment[tp].position.value);
  }
}
