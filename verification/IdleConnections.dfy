/**
 * IdleConnectionManager of kafka/client_async.py: an ordered dictionary of connections by last
 * use, and a check time that saves looking. Times are milliseconds; None is infinity.
 */
module IdleConnections {
  import opened Common

  datatype Entry = Entry(conn: string, ts: int)

  datatype Idle = Idle(maxIdle: Option<nat>, lru: seq<Entry>, nextCheck: Option<int>)

  function Plus(ts: int, idle: Option<nat>): Option<int> {
    if idle.None? then None else Some(ts + idle.value)
  }

  /** now >= t */
  predicate Reached(now: int, t: Option<int>) { t.Some? && now >= t.value }

  /** a <= b, infinity being the greatest. */
  predicate NoLater(a: Option<int>, b: Option<int>) { b.Some? ==> a.Some? && a.value <= b.value }

  predicate Expired(s: Idle, e: Entry, now: int) { Reached(now, Plus(e.ts, s.maxIdle)) }

  /** del d[conn], if present. */
  function Without(lru: seq<Entry>, conn: string): seq<Entry> {
    if lru == [] then []
    else if lru[0].conn == conn then Without(lru[1..], conn)
    else [lru[0]] + Without(lru[1..], conn)
  }

  function Start(maxIdleMs: int, now: int): Idle {
    var maxIdle: Option<nat> := if maxIdleMs > 0 then Some(maxIdleMs) else None;
    Idle(maxIdle, [], Plus(now, maxIdle))
  }

  function Update(s: Idle, conn: string, now: int): Idle {
    s.(lru := Without(s.lru, conn) + [Entry(conn, now)])
  }

  function Remove(s: Idle, conn: string): Idle {
    s.(lru := Without(s.lru, conn))
  }

  /** poll_expired_connection; the clock is read twice. */
  function Poll(s: Idle, now: int, later: int): (Idle, Option<Entry>) {
    if !Reached(now, s.nextCheck) || s.lru == [] then (s, None)
    else
      var oldest := s.lru[0];
      (s.(nextCheck := Plus(oldest.ts, s.maxIdle)), if Expired(s, oldest, later) then Some(oldest) else None)
  }

  // ----- the invariant -----------------------------------------------------------------

  ghost predicate SortedByTime(lru: seq<Entry>) {
    forall i, j :: 0 <= i < j < |lru| ==> lru[i].ts <= lru[j].ts
  }

  ghost predicate UniqueConnections(lru: seq<Entry>) {
    forall i, j :: 0 <= i < j < |lru| ==> lru[i].conn != lru[j].conn
  }

  /** No connection expires before the next check, and none was used after the clock. */
  ghost predicate Invariant(s: Idle, clock: int) {
    && SortedByTime(s.lru) && UniqueConnections(s.lru)
    && (forall i :: 0 <= i < |s.lru| ==> s.lru[i].ts <= clock && NoLater(s.nextCheck, Plus(s.lru[i].ts, s.maxIdle)))
    && NoLater(s.nextCheck, Plus(clock, s.maxIdle))
  }

  lemma {:induction false} WithoutHas(lru: seq<Entry>, conn: string)
    ensures forall e :: e in Without(lru, conn) <==> e in lru && e.conn != conn
  {
    if lru != [] {
      WithoutHas(lru[1..], conn);
      assert lru == [lru[0]] + lru[1..];
    }
  }

  lemma ConsKeepsOrder(e: Entry, w: seq<Entry>)
    requires SortedByTime(w) && UniqueConnections(w) && forall x :: x in w ==> e.ts <= x.ts && e.conn != x.conn
    ensures SortedByTime([e] + w) && UniqueConnections([e] + w)
  {
    forall i | 0 <= i < |w| ensures e.ts <= w[i].ts && e.conn != w[i].conn { assert w[i] in w; }
  }

  /** What is left after a deletion is a part of what was there, in order, and without the key. */
  lemma {:induction false} WithoutIsPart(lru: seq<Entry>, conn: string)
    requires SortedByTime(lru) && UniqueConnections(lru)
    ensures var w := Without(lru, conn);
            SortedByTime(w) && UniqueConnections(w) && forall e :: e in w <==> e in lru && e.conn != conn
  {
    WithoutHas(lru, conn);
    if lru != [] {
      WithoutIsPart(lru[1..], conn);
      var w := Without(lru[1..], conn);
      if lru[0].conn != conn {
        forall e | e in w ensures lru[0].ts <= e.ts && lru[0].conn != e.conn {
          var k :| 0 <= k < |lru[1..]| && lru[1..][k] == e;
          assert lru[k + 1] == e;
        }
        ConsKeepsOrder(lru[0], w);
      }
    }
  }

  lemma UpdateKeeps(s: Idle, clock: int, conn: string, now: int)
    requires Invariant(s, clock) && clock <= now
    ensures Invariant(Update(s, conn, now), now)
  {
    WithoutIsPart(s.lru, conn);
    var w := Without(s.lru, conn);
    forall i | 0 <= i < |w|
      ensures w[i].ts <= clock && w[i].conn != conn && NoLater(s.nextCheck, Plus(w[i].ts, s.maxIdle))
    {
      assert w[i] in w;
      var k :| 0 <= k < |s.lru| && s.lru[k] == w[i];
    }
  }

  lemma RemoveKeeps(s: Idle, clock: int, conn: string)
    requires Invariant(s, clock)
    ensures Invariant(Remove(s, conn), clock)
  {
    WithoutIsPart(s.lru, conn);
    var w := Without(s.lru, conn);
    forall i | 0 <= i < |w| ensures w[i].ts <= clock && NoLater(s.nextCheck, Plus(w[i].ts, s.maxIdle)) {
      assert w[i] in w;
      var k :| 0 <= k < |s.lru| && s.lru[k] == w[i];
    }
  }

  lemma PollKeeps(s: Idle, clock: int, now: int, later: int)
    requires Invariant(s, clock) && clock <= now <= later
    ensures Invariant(Poll(s, now, later).0, later)
  {
  }

  // ----- runs --------------------------------------------------------------------------

  datatype Event = Use(conn: string, now: int) | Drop(conn: string, now: int) | Check(now: int, later: int)
  {
    function Begins(): int { now }

    function Ends(): int { if Check? then later else now }
  }

  function Step(s: Idle, e: Event): Idle {
    match e
    case Use(conn, now) => Update(s, conn, now)
    case Drop(conn, _) => Remove(s, conn)
    case Check(now, later) => Poll(s, now, later).0
  }

  /** The clock never goes back. */
  predicate Monotone(clock: int, es: seq<Event>)
    decreases es
  {
    es == [] || (clock <= es[0].Begins() <= es[0].Ends() && Monotone(es[0].Ends(), es[1..]))
  }

  function Run(s: Idle, es: seq<Event>): Idle
    decreases es
  {
    if es == [] then s else Run(Step(s, es[0]), es[1..])
  }

  function Clock(clock: int, es: seq<Event>): int
    decreases es
  {
    if es == [] then clock else Clock(es[0].Ends(), es[1..])
  }

  lemma {:induction false} RunKeeps(s: Idle, clock: int, es: seq<Event>)
    requires Invariant(s, clock) && Monotone(clock, es)
    ensures Invariant(Run(s, es), Clock(clock, es))
    decreases es
  {
    if es != [] {
      var e := es[0];
      match e {
        case Use(conn, now) => UpdateKeeps(s, clock, conn, now);
        case Drop(conn, now) =>
          RemoveKeeps(s, clock, conn);
          LaterKeeps(Remove(s, conn), clock, now);
        case Check(now, later) => PollKeeps(s, clock, now, later);
      }
      RunKeeps(Step(s, e), e.Ends(), es[1..]);
    }
  }

  lemma LaterKeeps(s: Idle, clock: int, now: int)
    requires Invariant(s, clock) && clock <= now
    ensures Invariant(s, now)
  {
  }

  /**
   * After any sequence of uses, removals and checks under a clock that never goes back, and
   * for a check from then on: the first entry is the oldest; if the check returns nothing,
   * early or not, no connection had expired when it began; and it returns a connection only if
   * that is the oldest and has expired. So the early return never hides an expired connection.
   */
  lemma ChecksAreComplete(maxIdleMs: int, start: int, es: seq<Event>, now: int, later: int)
    requires Monotone(start, es) && Clock(start, es) <= now <= later
    ensures var s := Run(Start(maxIdleMs, start), es);
            && SortedByTime(s.lru) && UniqueConnections(s.lru)
            && (forall e :: e in s.lru ==> s.lru[0].ts <= e.ts && NoLater(s.nextCheck, Plus(e.ts, s.maxIdle)))
            && (Poll(s, now, later).1.None? ==> forall e :: e in s.lru ==> !Expired(s, e, now))
            && (forall e :: Poll(s, now, later).1 == Some(e) ==>
                  e in s.lru && Expired(s, e, later) && forall o :: o in s.lru ==> e.ts <= o.ts)
  {
    RunKeeps(Start(maxIdleMs, start), start, es);
    var s := Run(Start(maxIdleMs, start), es);
    forall e | e in s.lru ensures s.lru[0].ts <= e.ts && NoLater(s.nextCheck, Plus(e.ts, s.maxIdle)) {
      var k :| 0 <= k < |s.lru| && s.lru[k] == e;
    }
  }

  /** The event sets or ends the connection's entry. */
  predicate Touches(e: Event, conn: string) { !e.Check? && e.conn == conn }

  ghost predicate Untouched(es: seq<Event>, conn: string, from: int) {
    forall j :: 0 <= j && from <= j < |es| ==> !Touches(es[j], conn)
  }

  /** The k-th event used the connection at that time, and none after it used or removed it. */
  ghost predicate LastUsedAt(es: seq<Event>, conn: string, t: int, k: int) {
    0 <= k < |es| && es[k] == Use(conn, t) && Untouched(es, conn, k + 1)
  }

  lemma StepHas(s: Idle, e: Event, x: Entry)
    ensures x in Step(s, e).lru <==> e == Use(x.conn, x.ts) || (x in s.lru && !Touches(e, x.conn))
  {
    if !e.Check? { WithoutHas(s.lru, e.conn); }
  }

  lemma {:induction false} HeldAfter(s: Idle, es: seq<Event>, x: Entry)
    ensures x in Run(s, es).lru <==>
            (exists k :: LastUsedAt(es, x.conn, x.ts, k)) || (x in s.lru && Untouched(es, x.conn, 0))
    decreases es
  {
    if es != [] {
      var rest := es[1..];
      HeldAfter(Step(s, es[0]), rest, x);
      StepHas(s, es[0], x);
      assert Untouched(es, x.conn, 1) <==> Untouched(rest, x.conn, 0) by {
        assert forall j :: 1 <= j < |es| ==> es[j] == rest[j - 1];
        assert forall j :: 0 <= j < |rest| ==> rest[j] == es[j + 1];
      }
      forall k | 0 <= k < |rest| ensures LastUsedAt(es, x.conn, x.ts, k + 1) <==> LastUsedAt(rest, x.conn, x.ts, k) {
        LastUsedShifts(es, rest, x, k);
      }
      if k :| LastUsedAt(es, x.conn, x.ts, k) {
        if k > 0 { assert LastUsedAt(rest, x.conn, x.ts, k - 1); }
      }
      if k :| LastUsedAt(rest, x.conn, x.ts, k) { assert LastUsedAt(es, x.conn, x.ts, k + 1); }
      if es[0] == Use(x.conn, x.ts) && Untouched(es, x.conn, 1) { assert LastUsedAt(es, x.conn, x.ts, 0); }
      assert Untouched(es, x.conn, 0) <==> !Touches(es[0], x.conn) && Untouched(es, x.conn, 1);
    }
  }

  lemma LastUsedShifts(es: seq<Event>, rest: seq<Event>, x: Entry, k: nat)
    requires es != [] && rest == es[1..] && k < |rest|
    ensures LastUsedAt(es, x.conn, x.ts, k + 1) <==> LastUsedAt(rest, x.conn, x.ts, k)
  {
    assert forall j :: 1 <= j < |es| ==> es[j] == rest[j - 1];
    assert forall j :: 0 <= j < |rest| ==> rest[j] == es[j + 1];
  }

  /**
   * After any sequence of uses, removals and checks the dictionary holds a connection with a time if and
   * only if the connection was used at that time and neither used nor removed since.
   */
  lemma HoldsLastUses(maxIdleMs: int, start: int, es: seq<Event>, conn: string, t: int)
    ensures Entry(conn, t) in Run(Start(maxIdleMs, start), es).lru <==> exists k :: LastUsedAt(es, conn, t, k)
  {
    HeldAfter(Start(maxIdleMs, start), es, Entry(conn, t));
  }

  /**
   * What the check time saves, and no more: after any run, once a check has looked and found nothing to
   * close, the next one that looks is one at a time when some connection has expired.
   */
  lemma NextCheckIsExact(maxIdleMs: int, start: int, es: seq<Event>, now: int, later: int, t: int)
    requires Monotone(start, es) && Clock(start, es) <= now <= later
    requires var s := Run(Start(maxIdleMs, start), es); Reached(now, s.nextCheck) && s.lru != []
    ensures var s := Run(Start(maxIdleMs, start), es);
            Reached(t, Poll(s, now, later).0.nextCheck) <==> exists e :: e in s.lru && Expired(s, e, t)
  {
    RunKeeps(Start(maxIdleMs, start), start, es);
    var s := Run(Start(maxIdleMs, start), es);
    assert s.lru[0] in s.lru;
    if e :| e in s.lru && Expired(s, e, t) {
      var k :| 0 <= k < |s.lru| && s.lru[k] == e;
    }
  }

  /** A connection expires when it has not been used for that long, and never if the limit is not positive. */
  lemma {:induction false} ExpiresAfter(maxIdleMs: int, start: int, es: seq<Event>, e: Entry, now: int)
    ensures Expired(Run(Start(maxIdleMs, start), es), e, now) <==> maxIdleMs > 0 && e.ts + maxIdleMs <= now
  {
    KeepsLimit(Start(maxIdleMs, start), es);
  }

  lemma {:induction false} KeepsLimit(s: Idle, es: seq<Event>)
    ensures Run(s, es).maxIdle == s.maxIdle
    decreases es
  {
    if es != [] { KeepsLimit(Step(s, es[0]), es[1..]); }
  }

  // ----- the code ----------------------------------------------------------------------

  class IdleConnectionManager {
    const connectionsMaxIdle: Option<nat>
    var nextIdleCloseCheckTime: Option<int>
    var lruConnections: seq<Entry>

    function View(): Idle
      reads this
    {
      Idle(connectionsMaxIdle, lruConnections, nextIdleCloseCheckTime)
    }

    constructor (maxIdleMs: int, now: int)
      ensures View() == Start(maxIdleMs, now)
    {
      var maxIdle: Option<nat> := if maxIdleMs > 0 then Some(maxIdleMs) else None;
      connectionsMaxIdle := maxIdle;
      nextIdleCloseCheckTime := Plus(now, maxIdle);
      lruConnections := [];
    }

    method Delete(conn: string)
      modifies this`lruConnections
      ensures lruConnections == Without(old(lruConnections), conn)
    {
      var kept: seq<Entry> := [];
      for i := 0 to |lruConnections|
        invariant lruConnections == old(lruConnections) && kept == Without(lruConnections[..i], conn)
      {
        WithoutAppend(lruConnections[..i], lruConnections[i], conn);
        assert lruConnections[..i + 1] == lruConnections[..i] + [lruConnections[i]];
        if lruConnections[i].conn != conn { kept := kept + [lruConnections[i]]; }
      }
      assert lruConnections[..|lruConnections|] == lruConnections;
      lruConnections := kept;
    }

    method UpdateConnection(conn: string, now: int)
      modifies this`lruConnections
      ensures View() == Update(old(View()), conn, now)
    {
      Delete(conn);
      lruConnections := lruConnections + [Entry(conn, now)];
    }

    method RemoveConnection(conn: string)
      modifies this`lruConnections
      ensures View() == Remove(old(View()), conn)
    {
      Delete(conn);
    }

    /** The fallback where dictionaries keep no order: a linear scan for the first least time stamp. */
    method ScanOldest() returns (k: nat)
      requires lruConnections != []
      ensures FirstOldest(lruConnections, k)
    {
      k := 0;
      for i := 1 to |lruConnections|
        invariant FirstOldest(lruConnections[..i], k)
      {
        if lruConnections[i].ts < lruConnections[k].ts { k := i; }
      }
      assert lruConnections[..|lruConnections|] == lruConnections;
    }

    /** Both ways of finding the oldest connection give the same result. */
    method PollExpiredConnection(ordered: bool, now: int, later: int, ghost clock: int) returns (r: Option<Entry>)
      requires Invariant(View(), clock) && clock <= now <= later
      modifies this`nextIdleCloseCheckTime
      ensures (View(), r) == Poll(old(View()), now, later) && Invariant(View(), later)
    {
      PollKeeps(View(), clock, now, later);
      if !Reached(now, nextIdleCloseCheckTime) || |lruConnections| == 0 { return None; }
      var oldest;
      if ordered {
        oldest := lruConnections[0];
      } else {
        var k := ScanOldest();
        FirstIsOldest(lruConnections, k);
        oldest := lruConnections[k];
      }
      nextIdleCloseCheckTime := Plus(oldest.ts, connectionsMaxIdle);
      return if Reached(later, Plus(oldest.ts, connectionsMaxIdle)) then Some(oldest) else None;
    }
  }

  /** The first of the entries with the least time stamp. */
  ghost predicate FirstOldest(lru: seq<Entry>, k: nat) {
    && k < |lru|
    && forall j :: 0 <= j < |lru| ==> lru[k].ts <= lru[j].ts && (j < k ==> lru[k].ts < lru[j].ts)
  }

  lemma FirstIsOldest(lru: seq<Entry>, k: nat)
    requires SortedByTime(lru)
    ensures FirstOldest(lru, k) <==> k == 0 && lru != []
  {
    if 0 < k < |lru| { assert lru[0].ts <= lru[k].ts; }
  }

  lemma {:induction false} WithoutAppend(lru: seq<Entry>, e: Entry, conn: string)
    ensures Without(lru + [e], conn) == Without(lru, conn) + if e.conn == conn then [] else [e]
  {
    if lru == [] {
      assert lru + [e] == [e];
    } else {
      WithoutAppend(lru[1..], e, conn);
      assert (lru + [e])[1..] == lru[1..] + [e];
    }
  }
}
