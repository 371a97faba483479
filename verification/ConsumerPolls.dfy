/**
 * How far a poll gets: where each position stands once the responses at hand are read, told
 * partition by partition, and that every poll makes for that place.
 */
module ConsumerPolls {
  import opened Common
  import opened PartitionLog
  import opened PartitionReader
  import opened ConsumerModel

  /** A place in the partition, and whether the position was lost there. */
  datatype Place = Place(offset: int, lost: bool)

  /** Where reading a response leads: from its own fetch offset to its end, or to the loss of the position. */
  function Beyond(p: Place, f: CompletedFetch, tp: TopicPartition): Place {
    if f.tp != tp || p != Place(f.fetchOffset, false) then p
    else if f.error == Some(OffsetOutOfRange) then Place(p.offset, true)
    else if f.error.Some? then p
    else Place(f.End(), false)
  }

  /** Where the partition's responses lead one after another. */
  function Follow(p: Place, fs: seq<CompletedFetch>, tp: TopicPartition): Place
    decreases |fs|
  {
    if fs == [] then p else Follow(Beyond(p, fs[0], tp), fs[1..], tp)
  }

  function Position(s: Consumer, tp: TopicPartition): Option<int> {
    if tp in s.assignment then s.assignment[tp].position else None
  }

  /** The place behind the response being read, if that one is of the partition and next in line. */
  function Due(s: Consumer, tp: TopicPartition): Place
    requires Position(s, tp).Some?
  {
    if s.current.Some? && s.current.value.tp == tp && Position(s, tp) == Some(s.current.value.next)
    then Place(s.current.value.end, false)
    else Place(Position(s, tp).value, false)
  }

  /** Where the partition's position is headed for: nowhere if it is paused, else past all that is at hand. */
  function Outlook(s: Consumer, tp: TopicPartition): Place
    requires Position(s, tp).Some?
  {
    if s.assignment[tp].paused then Place(Position(s, tp).value, false) else Follow(Due(s, tp), s.completed, tp)
  }

  /** The partition went from one state to the other without leaving its way, or lost its position at the end of it. */
  predicate OnItsWay(s: Consumer, s1: Consumer, tp: TopicPartition) {
    && (tp in s.assignment <==> tp in s1.assignment)
    && (tp in s.assignment ==>
          && s1.assignment[tp].paused == s.assignment[tp].paused
          && (s1.assignment[tp].awaitingReset <==>
                s.assignment[tp].awaitingReset || Position(s, tp) != None == Position(s1, tp)))
    && (Position(s1, tp).Some? ==> Position(s, tp).Some?)
    && (Position(s, tp).Some? ==>
          if Position(s1, tp).Some? then Outlook(s1, tp) == Outlook(s, tp) else Outlook(s, tp).lost)
  }

  lemma {:induction false} LostStays(p: Place, fs: seq<CompletedFetch>, tp: TopicPartition)
    requires p.lost
    ensures Follow(p, fs, tp) == p
    decreases |fs|
  {
    if fs != [] { LostStays(p, fs[1..], tp); }
  }

  lemma ParseIsOnItsWay(s: Consumer, tp: TopicPartition)
    requires s.current.None? && s.completed != []
    ensures OnItsWay(s, Parse(s), tp)
  {
    if Position(s, tp).Some? {
      var p := Beyond(Due(s, tp), s.completed[0], tp);
      if p.lost { LostStays(p, s.completed[1..], tp); }
    }
  }

  /** The partition's flags are the same, it is at hand in the same responses, and due at the same place. */
  predicate SameDue(s: Consumer, s1: Consumer, tp: TopicPartition) {
    && s1.completed == s.completed && (tp in s.assignment <==> tp in s1.assignment)
    && (tp in s.assignment ==>
          && s1.assignment[tp].paused == s.assignment[tp].paused
          && s1.assignment[tp].awaitingReset == s.assignment[tp].awaitingReset
          && (s.assignment[tp].paused ==> s1.assignment[tp].position == s.assignment[tp].position))
    && (Position(s1, tp).Some? <==> Position(s, tp).Some?)
    && (Position(s, tp).Some? ==> Due(s1, tp) == Due(s, tp) || s.assignment[tp].paused)
  }

  lemma AppendIsDue(logs: Logs, committed: bool, s: Consumer, n: nat, tp: TopicPartition)
    requires s.current.Some?
    ensures SameDue(s, Append(logs, committed, s, n).0, tp)
  {
    var r := s.current.value;
    var (got, next) := Portion(logs.Truth(committed, r.tp), r.next, r.end, n);
    assert n > |got| ==> next == r.end;
  }

  lemma DueIsOnItsWay(s: Consumer, s1: Consumer, tp: TopicPartition)
    requires SameDue(s, s1, tp)
    ensures OnItsWay(s, s1, tp)
  {
  }

  lemma AppendIsOnItsWay(logs: Logs, committed: bool, s: Consumer, n: nat, tp: TopicPartition)
    requires s.current.Some?
    ensures OnItsWay(s, Append(logs, committed, s, n).0, tp)
  {
    AppendIsDue(logs, committed, s, n, tp);
    DueIsOnItsWay(s, Append(logs, committed, s, n).0, tp);
  }

  // ----- what is handed out on the way -------------------------------------------------

  /** Where the partition is in the later state, or where it was when it lost its position. */
  function Stop(s: Consumer, s1: Consumer, tp: TopicPartition): int
    requires Position(s, tp).Some?
  {
    if Position(s1, tp).Some? then Position(s1, tp).value else Outlook(s, tp).offset
  }

  /** What was handed out in between is every record from the old position to where the partition stopped. */
  ghost predicate Extends(truth: seq<Record>, s: Consumer, s1: Consumer, tp: TopicPartition) {
    if Position(s, tp).Some? then
      && Position(s, tp).value <= Stop(s, s1, tp)
      && Returned(s1, tp) == Returned(s, tp) + Window(truth, Position(s, tp).value, Stop(s, s1, tp))
    else Returned(s1, tp) == Returned(s, tp)
  }

  lemma ExtendsJoins(truth: seq<Record>, s: Consumer, s1: Consumer, s2: Consumer, tp: TopicPartition)
    requires Ascending(truth) && OnItsWay(s, s1, tp) && OnItsWay(s1, s2, tp)
    requires Extends(truth, s, s1, tp) && Extends(truth, s1, s2, tp)
    ensures OnItsWay(s, s2, tp) && Extends(truth, s, s2, tp)
  {
    if Position(s1, tp).Some? {
      WindowsJoin(truth, Position(s, tp).value, Position(s1, tp).value, Stop(s1, s2, tp));
    }
  }

  lemma AppendExtends(logs: Logs, committed: bool, s: Consumer, n: nat, tp: TopicPartition)
    requires s.current.Some? && s.current.value.next <= s.current.value.end && Ascending(logs.Truth(committed, tp))
    ensures Extends(logs.Truth(committed, tp), s, Append(logs, committed, s, n).0, tp)
  {
    var r := s.current.value;
    AppendIsDue(logs, committed, s, n, tp);
    if r.tp == tp && InLine(s) {
      PortionIsWindow(logs.Truth(committed, tp), r.next, r.end, n);
    } else {
      NothingExtends(logs.Truth(committed, tp), s, Append(logs, committed, s, n).0, tp);
    }
  }

  lemma NothingExtends(truth: seq<Record>, s: Consumer, s1: Consumer, tp: TopicPartition)
    requires Position(s1, tp) == Position(s, tp) && Returned(s1, tp) == Returned(s, tp)
    ensures Extends(truth, s, s1, tp)
  {
  }

  lemma ParseExtends(truth: seq<Record>, s: Consumer, tp: TopicPartition)
    requires s.current.None? && s.completed != []
    ensures Extends(truth, s, Parse(s), tp)
  {
    if Position(s, tp).Some? && Position(Parse(s), tp).None? {
      LostStays(Beyond(Due(s, tp), s.completed[0], tp), s.completed[1..], tp);
    }
  }

  /** The responses at hand are brokers' answers. */
  ghost predicate Readable(logs: Logs, s: Consumer) {
    && (forall i :: 0 <= i < |s.completed| ==> Faithful(logs, s.completed[i]))
    && (s.current.Some? ==> s.current.value.next <= s.current.value.end)
  }

  lemma ParseStaysReadable(logs: Logs, committed: bool, s: Consumer)
    requires logs.Ok() && Readable(logs, s) && s.completed != []
    ensures Readable(logs, Parse(s))
  {
    if s.completed[0].error.None? { FaithfulIsWindow(logs, committed, s.completed[0]); }
  }

  lemma AppendStaysReadable(logs: Logs, committed: bool, s: Consumer, n: nat)
    requires logs.Ok() && Readable(logs, s) && s.current.Some?
    ensures Readable(logs, Append(logs, committed, s, n).0)
  {
    TruthAscends(logs, committed, s.current.value.tp);
    AppendStaysInside(logs, committed, s, n);
  }

  /**
   * Polls neither lose a response that is next in line nor read another: a poll changes no
   * partition's outlook, and it stops short of it only if it has handed out all it may.
   */
  lemma {:induction false} PollIsOnItsWay(logs: Logs, committed: bool, s: Consumer, n: nat, tp: TopicPartition)
    requires logs.Ok() && Readable(logs, s)
    ensures var (s1, out) := Poll(logs, committed, s, n);
            && OnItsWay(s, s1, tp) && Extends(logs.Truth(committed, tp), s, s1, tp)
            && (|out| < n ==> s1.completed == [] && s1.current.None?)
    decreases Work(s), n
  {
    TruthAscends(logs, committed, tp);
    if n > 0 && s.current.Some? {
      AppendStaysReadable(logs, committed, s, n);
      AppendUsesUp(logs, committed, s, n);
      AppendIsOnItsWay(logs, committed, s, n, tp);
      AppendExtends(logs, committed, s, n, tp);
      var (s1, got) := Append(logs, committed, s, n);
      PollIsOnItsWay(logs, committed, s1, n - |got|, tp);
      var (s2, more) := Poll(logs, committed, s1, n - |got|);
      assert Poll(logs, committed, s, n) == (s2, Tagged(s.current.value.tp, got) + more);
      assert |got| + |more| < n ==> |more| < n - |got|;
      ExtendsJoins(logs.Truth(committed, tp), s, s1, s2, tp);
    } else if n > 0 && s.completed != [] {
      ParseStaysReadable(logs, committed, s);
      ParseIsOnItsWay(s, tp);
      ParseExtends(logs.Truth(committed, tp), s, tp);
      PollIsOnItsWay(logs, committed, Parse(s), n, tp);
      assert Poll(logs, committed, s, n) == Poll(logs, committed, Parse(s), n);
      ExtendsJoins(logs.Truth(committed, tp), s, Parse(s), Poll(logs, committed, s, n).0, tp);
    } else {
      assert Poll(logs, committed, s, n) == (s, []);
      NothingExtends(logs.Truth(committed, tp), s, s, tp);
    }
  }

  lemma NotedExtends(truth: seq<Record>, s: Consumer, s1: Consumer, out: seq<(TopicPartition, Record)>, n: nat,
          tp: TopicPartition)
    requires Noted(s, s1, out, n, tp) && Extends(truth, s, s1, tp) && Position(s, tp).Some?
    ensures Project(out, tp) == Window(truth, Position(s, tp).value, Stop(s, s1, tp))
  {
    var a, b, c := Returned(s, tp), Project(out, tp), Window(truth, Position(s, tp).value, Stop(s, s1, tp));
    assert (a + b)[|a|..] == b && (a + c)[|a|..] == c;
  }

  /** The poll got as far as the responses at hand lead, and handed out every record up to there. */
  ghost predicate Arrives(truth: seq<Record>, s: Consumer, position: Option<int>, rs: seq<Record>, tp: TopicPartition) {
    Position(s, tp).Some? ==>
      var place := Outlook(s, tp);
      && position == (if place.lost then None else Some(place.offset))
      && rs == Window(truth, Position(s, tp).value, place.offset)
  }

  lemma PollArrives(logs: Logs, committed: bool, s: Consumer, n: nat, tp: TopicPartition)
    requires logs.Ok() && Invariant(logs, committed, s)
    ensures var (s1, out) := Poll(logs, committed, s, n);
            |out| < n ==> Arrives(logs.Truth(committed, tp), s, Position(s1, tp), Project(out, tp), tp)
  {
    PollReturns(logs, committed, s, n, tp);
    PollIsOnItsWay(logs, committed, s, n, tp);
    var (s1, out) := Poll(logs, committed, s, n);
    if Position(s, tp).Some? { NotedExtends(logs.Truth(committed, tp), s, s1, out, n, tp); }
  }

  /**
   * Polls make headway. In every run, for a partition with a position: a poll that hands out less
   * than it may has read every response at hand, the position is where the partition's responses
   * lead (or lost there, with a reset awaited), and what was handed out for it is every visible
   * record from the old position to that place. A poll that hands out all it may stays on the way.
   */
  lemma PollCompletes(logs: Logs, committed: bool, es: seq<Event>, n: nat, tp: TopicPartition)
    requires logs.Ok() && ValidRun(logs, committed, Start(), es)
    requires Position(Run(logs, committed, Start(), es), tp).Some?
    ensures var s := Run(logs, committed, Start(), es);
            var (s1, out) := Poll(logs, committed, s, n);
            var place := Outlook(s, tp);
            && |out| <= n
            && Position(s, tp).value <= Stop(s, s1, tp)
            && Project(out, tp) == Window(logs.Truth(committed, tp), Position(s, tp).value, Stop(s, s1, tp))
            && (Position(s1, tp).Some? ==> Outlook(s1, tp) == place)
            && (Position(s1, tp).None? ==> place.lost && tp in s1.assignment && s1.assignment[tp].awaitingReset)
            && (|out| < n ==>
                  && s1.completed == [] && s1.current.None?
                  && Position(s1, tp) == (if place.lost then None else Some(place.offset))
                  && Stop(s, s1, tp) == place.offset)
  {
    RunKeepsInvariant(logs, committed, Start(), es);
    var s := Run(logs, committed, Start(), es);
    PollReturns(logs, committed, s, n, tp);
    PollIsOnItsWay(logs, committed, s, n, tp);
    var (s1, out) := Poll(logs, committed, s, n);
    NotedExtends(logs.Truth(committed, tp), s, s1, out, n, tp);
  }

  // ----- between polls -----------------------------------------------------------------

  /** A response that arrives is read after those at hand: it leads on from where they lead, and others stay. */
  lemma ResponseIsRead(logs: Logs, committed: bool, s: Consumer, f: CompletedFetch, tp: TopicPartition)
    requires Faithful(logs, f) && Position(s, tp).Some? && !s.assignment[tp].paused
    ensures var s1 := Step(logs, committed, s, Response(f));
            Position(s1, tp) == Position(s, tp) && Outlook(s1, tp) == Beyond(Outlook(s, tp), f, tp)
  {
    FollowOneMore(Due(s, tp), s.completed, f, tp);
  }

  lemma {:induction false} FollowOneMore(p: Place, fs: seq<CompletedFetch>, f: CompletedFetch, tp: TopicPartition)
    ensures Follow(p, fs + [f], tp) == Beyond(Follow(p, fs, tp), f, tp)
    decreases |fs|
  {
    if fs == [] {
      assert fs + [f] == [f];
      assert [f][1..] == [];
    } else {
      assert (fs + [f])[0] == fs[0] && (fs + [f])[1..] == fs[1..] + [f];
      FollowOneMore(Beyond(p, fs[0], tp), fs[1..], f, tp);
    }
  }

  /** The partition stays assigned, and nothing seeks, resets or resumes it. */
  predicate LeavesAlone(e: Event, tp: TopicPartition) {
    match e
    case Resume(t) => t != tp
    case Seek(t, _) => t != tp
    case RequestReset(t) => t != tp
    case AssignUser(tps) => tp in tps
    case AssignSubscribed(_) => false
    case _ => true
  }

  lemma PausedAppendIsStill(logs: Logs, committed: bool, s: Consumer, n: nat, tp: TopicPartition)
    requires tp in s.assignment && s.assignment[tp].paused && s.current.Some?
    ensures var (s1, got) := Append(logs, committed, s, n);
            && tp in s1.assignment && s1.assignment[tp] == s.assignment[tp]
            && Project(Tagged(s.current.value.tp, got), tp) == []
  {
    ProjectTagged(Append(logs, committed, s, n).1, s.current.value.tp, tp);
  }

  lemma {:induction false} PausedPollIsStill(logs: Logs, committed: bool, s: Consumer, n: nat, tp: TopicPartition)
    requires tp in s.assignment && s.assignment[tp].paused
    ensures var (s1, out) := Poll(logs, committed, s, n);
            tp in s1.assignment && s1.assignment[tp] == s.assignment[tp] && Project(out, tp) == []
    decreases Work(s), n
  {
    if n > 0 && s.current.Some? {
      PollTakesPortion(logs, committed, s, n);
      AppendUsesUp(logs, committed, s, n);
      var (s1, got) := Append(logs, committed, s, n);
      PausedAppendIsStill(logs, committed, s, n, tp);
      PausedPollIsStill(logs, committed, s1, n - |got|, tp);
      ProjectAppend(Tagged(s.current.value.tp, got), Poll(logs, committed, s1, n - |got|).1, tp);
    } else if n > 0 && s.completed != [] {
      PausedPollIsStill(logs, committed, Parse(s), n, tp);
    }
  }

  /**
   * A partition that is paused stands still: in any run that leaves it assigned and does not seek, reset or
   * resume it, its position stays, and the next poll hands out nothing for it.
   */
  lemma {:induction false} PausedStandsStill(logs: Logs, committed: bool, s: Consumer, es: seq<Event>,
          tp: TopicPartition, n: nat)
    requires tp in s.assignment && ValidRun(logs, committed, Step(logs, committed, s, Pause(tp)), es)
    requires forall i :: 0 <= i < |es| ==> LeavesAlone(es[i], tp)
    ensures var s1 := Run(logs, committed, Step(logs, committed, s, Pause(tp)), es);
            && Position(s1, tp) == Position(s, tp)
            && Project(Poll(logs, committed, s1, n).1, tp) == []
  {
    var s0 := Step(logs, committed, s, Pause(tp));
    StaysPaused(logs, committed, s0, es, tp);
    PausedPollIsStill(logs, committed, Run(logs, committed, s0, es), n, tp);
  }

  lemma {:induction false} StaysPaused(logs: Logs, committed: bool, s: Consumer, es: seq<Event>, tp: TopicPartition)
    requires tp in s.assignment && s.assignment[tp].paused && ValidRun(logs, committed, s, es)
    requires forall i :: 0 <= i < |es| ==> LeavesAlone(es[i], tp)
    ensures var s1 := Run(logs, committed, s, es); tp in s1.assignment && s1.assignment[tp] == s.assignment[tp]
    decreases es
  {
    if es != [] {
      var s1 := Step(logs, committed, s, es[0]);
      if es[0].PollRecords? { PausedPollIsStill(logs, committed, s, es[0].max, tp); }
      assert LeavesAlone(es[0], tp);
      assert forall i :: 0 <= i < |es[1..]| ==> es[1..][i] == es[i + 1];
      StaysPaused(logs, committed, s1, es[1..], tp);
    }
  }

  /** A reset is awaited only where there is no position. */
  ghost predicate ResetsAreDue(s: Consumer) {
    forall tp :: tp in s.assignment && s.assignment[tp].awaitingReset ==> s.assignment[tp].position.None?
  }

  lemma {:induction false} PollKeepsResets(logs: Logs, committed: bool, s: Consumer, n: nat)
    requires ResetsAreDue(s)
    ensures ResetsAreDue(Poll(logs, committed, s, n).0)
    decreases Work(s), n
  {
    if n > 0 && s.current.Some? {
      PollTakesPortion(logs, committed, s, n);
      AppendUsesUp(logs, committed, s, n);
      var (s1, got) := Append(logs, committed, s, n);
      PollKeepsResets(logs, committed, s1, n - |got|);
    } else if n > 0 && s.completed != [] {
      PollKeepsResets(logs, committed, Parse(s), n);
    }
  }

  /** In every run: where a position is known no reset is awaited, so that no reset overwrites a seek. */
  lemma {:induction false} ResetsEndWithSeeks(logs: Logs, committed: bool, s: Consumer, es: seq<Event>)
    requires ResetsAreDue(s) && ValidRun(logs, committed, s, es)
    ensures ResetsAreDue(Run(logs, committed, s, es))
    decreases es
  {
    if es != [] {
      if es[0].PollRecords? { PollKeepsResets(logs, committed, s, es[0].max); }
      ResetsEndWithSeeks(logs, committed, Step(logs, committed, s, es[0]), es[1..]);
    }
  }

  // ----- single responses --------------------------------------------------------------

  /**
   * The oldest response, next in line, with no other being read: its visible records from the
   * position on come first, as many as allowed, and the position moves behind the last of them, or
   * to the end of the response if more was allowed. The poll goes on from there.
   */
  lemma OldestIsHandedOut(logs: Logs, committed: bool, s: Consumer, n: nat)
    requires n > 0 && s.current.None? && s.completed != []
    requires var f := s.completed[0];
             f.error.None? && Fetchable(s, f.tp) && Position(s, f.tp) == Some(f.fetchOffset)
    ensures var f, (s1, out) := s.completed[0], Poll(logs, committed, s, n);
            var w := Window(logs.Truth(committed, f.tp), f.fetchOffset, f.End());
            && Min(n, |w|) <= |out| && out[..Min(n, |w|)] == Tagged(f.tp, w[..Min(n, |w|)])
            && (n <= |w| ==>
                  && out == Tagged(f.tp, w[..n]) && s1.completed == s.completed[1..]
                  && Position(s1, f.tp) == Some(w[n - 1].offset + 1)
                  && s1.current == Some(Reading(f.tp, w[n - 1].offset + 1, f.End())))
            && (n > |w| ==>
                  Poll(logs, committed, s, n) ==
                    PollFrom(logs, committed, Moved(s, f.tp, f.End(), w), n - |w|, Tagged(f.tp, w)))
  {
    var f := s.completed[0];
    var w := Window(logs.Truth(committed, f.tp), f.fetchOffset, f.End());
    OldestIsRead(logs, committed, s, n);
    assert Poll(logs, committed, s, n) == Poll(logs, committed, Parse(s), n);
    PollTakesPortion(logs, committed, Parse(s), n);
    var (s2, got) := Append(logs, committed, Parse(s), n);
    assert w[..|w|] == w;
    GoesOn(logs, committed, s2, n - |got|, Tagged(f.tp, got));
  }

  /** What is handed out first stays first, and is all if no more is allowed. */
  lemma GoesOn(logs: Logs, committed: bool, s: Consumer, n: nat, first: seq<(TopicPartition, Record)>)
    ensures var (s1, out) := PollFrom(logs, committed, s, n, first);
            |first| <= |out| && out[..|first|] == first && (n == 0 ==> s1 == s && out == first)
  {
    if n == 0 { PollEnds(logs, committed, s, n, first); }
  }

  lemma PollTakesPortion(logs: Logs, committed: bool, s: Consumer, n: nat)
    requires n > 0 && s.current.Some?
    ensures var (s1, got) := Append(logs, committed, s, n);
            |got| <= n && Poll(logs, committed, s, n) ==
              PollFrom(logs, committed, s1, n - |got|, Tagged(s.current.value.tp, got))
  {
    PollStarts(logs, committed, s, n);
    PollAppends(logs, committed, s, n, []);
    var (s1, got) := Append(logs, committed, s, n);
    assert [] + Tagged(s.current.value.tp, got) == Tagged(s.current.value.tp, got);
  }

  /** In the model: it is opened, and a portion of it appended. */
  lemma OldestIsRead(logs: Logs, committed: bool, s: Consumer, n: nat)
    requires n > 0 && s.current.None? && s.completed != []
    requires var f := s.completed[0];
             f.error.None? && Fetchable(s, f.tp) && Position(s, f.tp) == Some(f.fetchOffset)
    ensures var f := s.completed[0];
            var w := Window(logs.Truth(committed, f.tp), f.fetchOffset, f.End());
            && Parse(s).current == Some(Reading(f.tp, f.fetchOffset, f.End()))
            && var (s2, got) := Append(logs, committed, Parse(s), n);
            && (n > |w| ==> got == w && s2 == Moved(s, f.tp, f.End(), w))
            && (n <= |w| ==>
                  && got == w[..n] && s2.completed == s.completed[1..]
                  && Position(s2, f.tp) == Some(w[n - 1].offset + 1)
                  && s2.current == Some(Reading(f.tp, w[n - 1].offset + 1, f.End())))
  {
  }

  /** The oldest response is off, its records are handed out, and the position is this. */
  function Moved(s: Consumer, tp: TopicPartition, position: int, got: seq<Record>): Consumer
    requires tp in s.assignment && s.completed != []
  {
    s.(assignment := s.assignment[tp := s.assignment[tp].(position := Some(position))],
       completed := s.completed[1..],
       returned := s.returned[tp := Returned(s, tp) + got])
  }

  /**
   * Any other oldest response is dropped; it costs the position if and only if it says out of
   * range at that position.
   */
  lemma OthersAreDropped(logs: Logs, committed: bool, s: Consumer, n: nat)
    requires n > 0 && s.current.None? && s.completed != []
    requires var f := s.completed[0];
             f.error.Some? || !Fetchable(s, f.tp) || Position(s, f.tp) != Some(f.fetchOffset)
    ensures var f := s.completed[0];
            var rest := s.(completed := s.completed[1..]);
            Poll(logs, committed, s, n) ==
              if f.error == Some(OffsetOutOfRange) && Fetchable(s, f.tp) && Position(s, f.tp) == Some(f.fetchOffset)
              then Poll(logs, committed, rest.(assignment := s.assignment[f.tp := PartitionState(None, false, true)]),
                n)
              else Poll(logs, committed, rest, n)
  {
  }

  /** The chain of responses ends in a loss if and only if it reaches an out-of-range answer. */
  lemma {:induction false} LostToOutOfRange(p: Place, fs: seq<CompletedFetch>, tp: TopicPartition)
    requires !p.lost
    ensures Follow(p, fs, tp).lost <==> exists i :: Loses(p, fs, tp, i)
    decreases |fs|
  {
    if fs != [] {
      var p1, rest := Beyond(p, fs[0], tp), fs[1..];
      if p1.lost {
        LostStays(p1, rest, tp);
        assert Loses(p, fs, tp, 0);
      } else {
        LostToOutOfRange(p1, rest, tp);
        forall i | 0 <= i < |rest| ensures Loses(p, fs, tp, i + 1) <==> Loses(p1, rest, tp, i) {
          assert fs[..i + 1][1..] == rest[..i];
        }
        assert !Loses(p, fs, tp, 0);
        if i :| Loses(p, fs, tp, i) { assert Loses(p1, rest, tp, i - 1); }
        if i :| Loses(p1, rest, tp, i) { assert Loses(p, fs, tp, i + 1); }
      }
    }
  }

  /** The i-th response says out of range at the very place the earlier ones lead to. */
  predicate Loses(p: Place, fs: seq<CompletedFetch>, tp: TopicPartition, i: int) {
    && 0 <= i < |fs| && fs[i].tp == tp && fs[i].error == Some(OffsetOutOfRange)
    && Follow(p, fs[..i], tp) == Place(fs[i].fetchOffset, false)
  }
}
