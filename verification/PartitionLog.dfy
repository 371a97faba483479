/**
 * A partition's log and what a consumer may see of it, and the streaming read_committed
 * filter (KIP-98) of Fetcher.PartitionRecords with the proof that it yields just that.
 */
module PartitionLog {
  import opened Common

  datatype Record = Record(offset: int, value: int)

  datatype Batch = Batch(
    base: int,
    last: int,
    magic: int,
    pid: int,
    transactional: bool,
    control: bool,
    abort: bool,                // the type of a control batch's one record
    records: seq<Record>)
  {
    predicate HasPid() { pid > -1 }
  }

  /** An entry of a fetch response's aborted_transactions. */
  datatype AbortedTransaction = AbortedTransaction(pid: int, first: int)

  /** An aborted transaction of the log: its first offset and the offset of its marker. */
  datatype Transaction = Transaction(pid: int, first: int, marker: int)

  // ----- well-formed logs --------------------------------------------------------------

  ghost predicate Ascending(rs: seq<Record>) {
    forall i, j :: 0 <= i < j < |rs| ==> rs[i].offset < rs[j].offset
  }

  ghost predicate BatchOk(b: Batch) {
    b.base <= b.last && Ascending(b.records) && forall i :: 0 <= i < |b.records| ==>
      b.base <= b.records[i].offset <= b.last
  }

  ghost predicate LogOk(log: seq<Batch>) {
    && (forall i :: 0 <= i < |log| ==> BatchOk(log[i]))
    && (forall i, j :: 0 <= i < j < |log| ==> log[i].last < log[j].base)
  }

  ghost predicate IsMarker(b: Batch, t: Transaction) {
    b.base == b.last == t.marker && b.magic == 2 && b.pid == t.pid && b.control && b.abort
  }

  /** Aborted transactions end with their marker and own whole batches; no other marker of the producer lies inside. */
  ghost predicate TransactionsOk(log: seq<Batch>, txns: set<Transaction>) {
    && (forall t :: t in txns ==> t.first < t.marker && t.pid > -1)
    && (forall t :: t in txns && log != [] && log[0].base <= t.marker <= log[|log| - 1].last ==>
          exists j :: 0 <= j < |log| && IsMarker(log[j], t))
    && (forall t, j :: t in txns && 0 <= j < |log| && log[j].pid == t.pid ==> Apart(log[j], t))
  }

  /** A batch of the producer lies before, inside or after the transaction; a marker not inside. */
  predicate Apart(b: Batch, t: Transaction) {
    if b.control then b.last < t.first || t.marker <= b.base
    else if b.transactional then b.last < t.first || t.marker < b.base || (t.first <= b.base && b.last < t.marker)
    else true
  }

  // ----- what a consumer may see -------------------------------------------------------

  ghost predicate Aborted(txns: set<Transaction>, b: Batch) {
    b.transactional && exists t :: t in txns && t.pid == b.pid && t.first <= b.base && b.last < t.marker
  }

  ghost predicate Visible(committed: bool, txns: set<Transaction>, b: Batch) {
    b.magic == 2 ==> !b.control && !(committed && b.HasPid() && Aborted(txns, b))
  }

  /** All visible records of a log, in order. */
  ghost function VisibleRecords(committed: bool, txns: set<Transaction>, log: seq<Batch>): seq<Record> {
    if log == [] then []
    else (if Visible(committed, txns, log[0]) then log[0].records else []) + VisibleRecords(committed, txns, log[1..])
  }

  /** How many records come before the first one at or after offset x. */
  function Before(rs: seq<Record>, x: int): nat
    ensures Before(rs, x) <= |rs|
  {
    if rs == [] || rs[0].offset >= x then 0 else 1 + Before(rs[1..], x)
  }

  /** The records at offsets from..to-1. */
  function Window(rs: seq<Record>, from: int, to: int): seq<Record> {
    if Before(rs, from) <= Before(rs, to) then rs[Before(rs, from)..Before(rs, to)] else []
  }

  lemma {:induction false} BeforeSplits(rs: seq<Record>, x: int)
    requires Ascending(rs)
    ensures forall i :: 0 <= i < Before(rs, x) ==> rs[i].offset < x
    ensures forall i :: Before(rs, x) <= i < |rs| ==> x <= rs[i].offset
  {
    if rs != [] && rs[0].offset < x {
      BeforeSplits(rs[1..], x);
      assert forall i :: 0 < i < |rs| ==> rs[i] == rs[1..][i - 1];
    }
  }

  /** Only one place splits ascending records at x. */
  lemma BeforeIs(rs: seq<Record>, x: int, k: nat)
    requires Ascending(rs) && k <= |rs|
    requires k > 0 ==> rs[k - 1].offset < x
    requires k < |rs| ==> x <= rs[k].offset
    ensures Before(rs, x) == k
  {
    BeforeSplits(rs, x);
  }

  lemma BeforeGrows(rs: seq<Record>, x: int, y: int)
    requires Ascending(rs) && x <= y
    ensures Before(rs, x) <= Before(rs, y)
  {
    BeforeSplits(rs, x);
    BeforeSplits(rs, y);
  }

  /** A window holds exactly the records with those offsets. */
  lemma WindowIsFilter(rs: seq<Record>, from: int, to: int, r: Record)
    requires Ascending(rs)
    ensures r in Window(rs, from, to) <==> r in rs && from <= r.offset < to
  {
    BeforeSplits(rs, from);
    BeforeSplits(rs, to);
    if r in rs && from <= r.offset < to {
      var i :| 0 <= i < |rs| && rs[i] == r;
      assert Before(rs, from) <= i < Before(rs, to);
      assert Window(rs, from, to)[i - Before(rs, from)] == r;
    }
  }

  lemma WindowsJoin(rs: seq<Record>, a: int, b: int, c: int)
    requires Ascending(rs) && a <= b <= c
    ensures Window(rs, a, c) == Window(rs, a, b) + Window(rs, b, c)
  {
    BeforeGrows(rs, a, b);
    BeforeGrows(rs, b, c);
  }

  // ----- the streaming filter ----------------------------------------------------------

  /** What the generator keeps: the queue of aborted transactions not begun yet and the producers inside one. */
  datatype Filter = Filter(queue: seq<AbortedTransaction>, pids: set<int>)

  /** _consume_aborted_transactions_up_to */
  function Consume(f: Filter, offset: int): Filter
    decreases |f.queue|
  {
    if f.queue != [] && f.queue[0].first <= offset then
      Consume(Filter(f.queue[1..], f.pids + {f.queue[0].pid}), offset)
    else f
  }

  /** One turn of the generator's loop: the state after the batch, and whether the batch is skipped. */
  function Enter(committed: bool, f: Filter, b: Batch): (Filter, bool) {
    if b.magic != 2 then (f, false)
    else if !committed || !b.HasPid() then (f, b.control)
    else
      var f1 := Consume(f, b.last);
      if b.control && b.abort then (f1.(pids := f1.pids - {b.pid}), true)
      else if b.transactional && b.pid in f1.pids then (f1, true)
      else (f1, b.control)
  }

  /** Everything the generator yields. */
  function Output(committed: bool, f: Filter, bs: seq<Batch>): seq<Record>
    decreases |bs|
  {
    if bs == [] then []
    else
      var (f1, skip) := Enter(committed, f, bs[0]);
      (if skip then [] else bs[0].records) + Output(committed, f1, bs[1..])
  }

  ghost predicate SortedQueue(q: seq<AbortedTransaction>) {
    forall i, j :: 0 <= i < j < |q| ==> q[i].first <= q[j].first
  }

  lemma {:induction false} ConsumeTakesBegun(f: Filter, offset: int)
    requires SortedQueue(f.queue)
    ensures var f1 := Consume(f, offset);
            && SortedQueue(f1.queue)
            && (forall a :: a in f1.queue <==> a in f.queue && a.first > offset)
            && (forall p :: p in f1.pids <==>
                  p in f.pids || exists a :: a in f.queue && a.first <= offset && a.pid == p)
    decreases |f.queue|
  {
    if f.queue != [] && f.queue[0].first <= offset {
      var g := Filter(f.queue[1..], f.pids + {f.queue[0].pid});
      ConsumeTakesBegun(g, offset);
      assert f.queue == [f.queue[0]] + f.queue[1..];
      forall p
        ensures p in Consume(g, offset).pids <==>
                p in f.pids || exists a :: a in f.queue && a.first <= offset && a.pid == p
      {
        if exists a :: a in f.queue && a.first <= offset && a.pid == p {
          var a :| a in f.queue && a.first <= offset && a.pid == p;
          assert a == f.queue[0] || a in g.queue;
        } else if p in Consume(g, offset).pids && p !in f.pids {
          assert f.queue[0] in f.queue;
        }
      }
    } else {
      forall a | a in f.queue ensures a.first > offset {
        var i :| 0 <= i < |f.queue| && f.queue[i] == a;
        assert f.queue[0].first <= a.first;
      }
    }
  }

  // ----- the filter's invariant --------------------------------------------------------

  /** The offset up to which the segment log[lo..] has been read before its batch k. */
  function ReadUpTo(log: seq<Batch>, lo: nat, k: nat): int
    requires lo <= k <= |log| && lo < |log|
  {
    if k == lo then log[lo].base - 1 else log[k - 1].last
  }

  /** The transaction's marker is still to come, and so may be its data. */
  ghost predicate Open(txns: set<Transaction>, t: Transaction, d: int) {
    t in txns && t.marker > d
  }

  /** A producer is in the set exactly for an open transaction that has begun; all later ones are in the queue. */
  ghost predicate Tracks(txns: set<Transaction>, d: int, end: int, f: Filter) {
    && SortedQueue(f.queue)
    && (forall a :: a in f.queue ==> exists t :: Open(txns, t, d) && t.pid == a.pid && t.first == a.first)
    && (forall p :: p in f.pids ==> exists t :: Open(txns, t, d) && t.pid == p && t.first <= d)
    && (forall t :: Open(txns, t, d) && t.first <= end ==>
          AbortedTransaction(t.pid, t.first) in f.queue || (t.pid in f.pids && t.first <= d))
  }

  /** A marker between the part that was read and the end of the next batch is that batch. */
  lemma NextMarker(log: seq<Batch>, txns: set<Transaction>, lo: nat, k: nat, t: Transaction)
    requires LogOk(log) && TransactionsOk(log, txns) && lo <= k < |log| && t in txns
    requires ReadUpTo(log, lo, k) < t.marker <= log[k].last
    ensures IsMarker(log[k], t)
  {
    forall i | 0 <= i < k ensures log[i].last <= ReadUpTo(log, lo, k) {
      if i < k - 1 { assert log[i].last < log[k - 1].base; }
    }
    forall i | k < i < |log| ensures log[k].last < log[i].base {}
    assert log[0].base <= t.marker <= log[|log| - 1].last;
    var j :| 0 <= j < |log| && IsMarker(log[j], t);
  }

  /** An open transaction stays open past a batch that is not its marker. */
  lemma StaysOpen(log: seq<Batch>, txns: set<Transaction>, lo: nat, k: nat, t: Transaction)
    requires LogOk(log) && TransactionsOk(log, txns) && lo <= k < |log| && Open(txns, t, ReadUpTo(log, lo, k))
    ensures Open(txns, t, log[k].last) || IsMarker(log[k], t)
  {
    if t.marker <= log[k].last { NextMarker(log, txns, lo, k, t); }
  }

  /** Whoever is in the set after the queue was consumed up to batch k has an open transaction that has begun. */
  lemma BegunIsOpen(txns: set<Transaction>, d: int, end: int, f: Filter, offset: int, p: int) returns (t: Transaction)
    requires Tracks(txns, d, end, f) && d <= offset && p in Consume(f, offset).pids
    ensures Open(txns, t, d) && t.pid == p && t.first <= offset
  {
    ConsumeTakesBegun(f, offset);
    if p in f.pids {
      t :| Open(txns, t, d) && t.pid == p && t.first <= d;
    } else {
      var a :| a in f.queue && a.first <= offset && a.pid == p;
      t :| Open(txns, t, d) && t.pid == a.pid && t.first == a.first;
    }
  }

  /** An open transaction that has begun by then has its producer in the set. */
  lemma OpenIsBegun(txns: set<Transaction>, d: int, end: int, f: Filter, offset: int, t: Transaction)
    requires Tracks(txns, d, end, f) && d <= offset <= end && Open(txns, t, d) && t.first <= offset
    ensures t.pid in Consume(f, offset).pids
  {
    ConsumeTakesBegun(f, offset);
    var a := AbortedTransaction(t.pid, t.first);
    assert a in f.queue || t.pid in f.pids;
  }

  /** The producer of a data batch is in the set exactly if the batch belongs to an aborted transaction. */
  lemma SkipsAborted(log: seq<Batch>, txns: set<Transaction>, lo: nat, k: nat, end: int, f: Filter)
    requires LogOk(log) && TransactionsOk(log, txns) && lo <= k < |log| && log[k].last <= end
    requires Tracks(txns, ReadUpTo(log, lo, k), end, f) && log[k].HasPid() && log[k].transactional && !log[k].control
    ensures log[k].pid in Consume(f, log[k].last).pids <==> Aborted(txns, log[k])
  {
    var b, d := log[k], ReadUpTo(log, lo, k);
    assert d < b.base <= b.last;
    if b.pid in Consume(f, b.last).pids {
      var t := BegunIsOpen(txns, d, end, f, b.last, b.pid);
      StaysOpen(log, txns, lo, k, t);
      assert Apart(b, t);
    }
    if Aborted(txns, b) {
      var t :| t in txns && t.pid == b.pid && t.first <= b.base && b.last < t.marker;
      OpenIsBegun(txns, d, end, f, b.last, t);
    }
  }

  /** Reading a batch without a producer id leaves the filter as it is, and right. */
  lemma PassKeepsTrack(log: seq<Batch>, txns: set<Transaction>, lo: nat, k: nat, end: int, f: Filter)
    requires LogOk(log) && TransactionsOk(log, txns) && lo <= k < |log| && log[k].last <= end
    requires Tracks(txns, ReadUpTo(log, lo, k), end, f) && !(log[k].magic == 2 && log[k].HasPid())
    ensures Tracks(txns, log[k].last, end, f)
  {
    var d, d' := ReadUpTo(log, lo, k), log[k].last;
    forall t | Open(txns, t, d) ensures Open(txns, t, d') { StaysOpen(log, txns, lo, k, t); }
    assert d < d';
  }

  /** Reading a batch with a producer id that is not an abort marker. */
  lemma ConsumeKeepsTrack(log: seq<Batch>, txns: set<Transaction>, lo: nat, k: nat, end: int, f: Filter)
    requires LogOk(log) && TransactionsOk(log, txns) && lo <= k < |log| && log[k].last <= end
    requires Tracks(txns, ReadUpTo(log, lo, k), end, f) && !(log[k].control && log[k].abort)
    ensures Tracks(txns, log[k].last, end, Consume(f, log[k].last))
  {
    var d, d' := ReadUpTo(log, lo, k), log[k].last;
    var f1 := Consume(f, d');
    ConsumeTakesBegun(f, d');
    forall t | Open(txns, t, d) ensures Open(txns, t, d') { StaysOpen(log, txns, lo, k, t); }
    forall p | p in f1.pids ensures exists t :: Open(txns, t, d') && t.pid == p && t.first <= d' {
      var t := BegunIsOpen(txns, d, end, f, d', p);
    }
    forall t | Open(txns, t, d') && t.first <= end
      ensures AbortedTransaction(t.pid, t.first) in f1.queue || (t.pid in f1.pids && t.first <= d')
    {
      if t.first <= d' { OpenIsBegun(txns, d, end, f, d', t); }
    }
  }

  lemma MarkerIsNotInside(log: seq<Batch>, txns: set<Transaction>, k: nat, t: Transaction)
    requires TransactionsOk(log, txns) && k < |log| && log[k].control && t in txns && t.first <= log[k].last
    requires BatchOk(log[k])
    ensures t.pid == log[k].pid ==> t.marker <= log[k].last
  {
    if t.pid == log[k].pid { assert Apart(log[k], t); }
  }

  /** Reading an abort marker closes its producer's transaction and no other. */
  lemma MarkerKeepsTrack(log: seq<Batch>, txns: set<Transaction>, lo: nat, k: nat, end: int, f: Filter)
    requires LogOk(log) && TransactionsOk(log, txns) && lo <= k < |log| && log[k].last <= end
    requires Tracks(txns, ReadUpTo(log, lo, k), end, f) && log[k].control && log[k].abort
    ensures var f1 := Consume(f, log[k].last);
            Tracks(txns, log[k].last, end, f1.(pids := f1.pids - {log[k].pid}))
  {
    var b, d, d' := log[k], ReadUpTo(log, lo, k), log[k].last;
    var f1 := Consume(f, d');
    var f2 := f1.(pids := f1.pids - {b.pid});
    ConsumeTakesBegun(f, d');
    forall a | a in f2.queue ensures exists t :: Open(txns, t, d') && t.pid == a.pid && t.first == a.first {
      var t :| Open(txns, t, d) && t.pid == a.pid && t.first == a.first;
    }
    forall p | p in f2.pids ensures exists t :: Open(txns, t, d') && t.pid == p && t.first <= d' {
      var t := BegunIsOpen(txns, d, end, f, d', p);
      StaysOpen(log, txns, lo, k, t);
    }
    forall t | Open(txns, t, d') && t.first <= end
      ensures AbortedTransaction(t.pid, t.first) in f2.queue || (t.pid in f2.pids && t.first <= d')
    {
      if t.first <= d' {
        OpenIsBegun(txns, d, end, f, d', t);
        MarkerIsNotInside(log, txns, k, t);
      }
    }
  }

  /** One batch of the segment: it is skipped exactly if it is not visible, and the filter stays right. */
  lemma EnterIsRight(log: seq<Batch>, txns: set<Transaction>, lo: nat, k: nat, end: int, f: Filter)
    requires LogOk(log) && TransactionsOk(log, txns) && lo <= k < |log| && log[k].last <= end
    requires Tracks(txns, ReadUpTo(log, lo, k), end, f)
    ensures Tracks(txns, log[k].last, end, Enter(true, f, log[k]).0)
    ensures Enter(true, f, log[k]).1 <==> !Visible(true, txns, log[k])
  {
    var b := log[k];
    if b.magic != 2 || !b.HasPid() {
      PassKeepsTrack(log, txns, lo, k, end, f);
    } else if b.control && b.abort {
      MarkerKeepsTrack(log, txns, lo, k, end, f);
    } else {
      ConsumeKeepsTrack(log, txns, lo, k, end, f);
      if b.transactional && !b.control { SkipsAborted(log, txns, lo, k, end, f); }
    }
  }

  lemma {:induction false} StreamIsFilter(log: seq<Batch>, txns: set<Transaction>, lo: nat, k: nat, hi: nat, f: Filter)
    requires LogOk(log) && TransactionsOk(log, txns) && lo <= k <= hi <= |log| && lo < hi
    requires Tracks(txns, ReadUpTo(log, lo, k), log[hi - 1].last, f)
    ensures Output(true, f, log[k..hi]) == VisibleRecords(true, txns, log[k..hi])
    decreases hi - k
  {
    if k < hi {
      StreamStep(log, txns, lo, k, hi, f);
      StreamIsFilter(log, txns, lo, k + 1, hi, Enter(true, f, log[k]).0);
      SliceHead(log, k, hi);
      OneBatchMore(f, txns, log[k..hi]);
    }
  }

  lemma StreamStep(log: seq<Batch>, txns: set<Transaction>, lo: nat, k: nat, hi: nat, f: Filter)
    requires LogOk(log) && TransactionsOk(log, txns) && lo <= k < hi <= |log|
    requires Tracks(txns, ReadUpTo(log, lo, k), log[hi - 1].last, f)
    ensures Tracks(txns, ReadUpTo(log, lo, k + 1), log[hi - 1].last, Enter(true, f, log[k]).0)
    ensures Enter(true, f, log[k]).1 <==> !Visible(true, txns, log[k])
  {
    LastsGrow(log, k, hi);
    EnterIsRight(log, txns, lo, k, log[hi - 1].last, f);
  }

  lemma SliceHead(log: seq<Batch>, k: nat, hi: nat)
    requires k < hi <= |log|
    ensures log[k..hi] != [] && log[k..hi][0] == log[k] && log[k..hi][1..] == log[k + 1..hi]
  {
  }

  lemma LastsGrow(log: seq<Batch>, k: nat, hi: nat)
    requires LogOk(log) && k < hi <= |log|
    ensures log[k].last <= log[hi - 1].last
  {
    if k < hi - 1 { assert log[k].last < log[hi - 1].base; }
  }

  lemma OneBatchMore(f: Filter, txns: set<Transaction>, bs: seq<Batch>)
    requires bs != [] && (Enter(true, f, bs[0]).1 <==> !Visible(true, txns, bs[0]))
    requires Output(true, Enter(true, f, bs[0]).0, bs[1..]) == VisibleRecords(true, txns, bs[1..])
    ensures Output(true, f, bs) == VisibleRecords(true, txns, bs)
  {
  }

  lemma {:induction false} UncommittedIsFilter(f: Filter, txns: set<Transaction>, bs: seq<Batch>)
    ensures Output(false, f, bs) == VisibleRecords(false, txns, bs)
    decreases |bs|
  {
    if bs != [] { UncommittedIsFilter(f, txns, bs[1..]); }
  }

  // ----- a fetch response --------------------------------------------------------------

  /** A stable insertion by first offset, as sorted() does it. */
  function Inserted(a: AbortedTransaction, q: seq<AbortedTransaction>): seq<AbortedTransaction> {
    if q == [] || a.first < q[0].first then [a] + q else [q[0]] + Inserted(a, q[1..])
  }

  function Sorted(xs: seq<AbortedTransaction>): seq<AbortedTransaction> {
    if xs == [] then [] else Inserted(xs[|xs| - 1], Sorted(xs[..|xs| - 1]))
  }

  lemma {:induction false} InsertedHas(a: AbortedTransaction, q: seq<AbortedTransaction>)
    ensures multiset(Inserted(a, q)) == multiset(q) + multiset{a}
    ensures forall x :: x in Inserted(a, q) <==> x in q || x == a
  {
    if q != [] && a.first >= q[0].first {
      InsertedHas(a, q[1..]);
      assert q == [q[0]] + q[1..];
    }
  }

  lemma {:induction false} InsertedIsSorted(a: AbortedTransaction, q: seq<AbortedTransaction>)
    requires SortedQueue(q)
    ensures SortedQueue(Inserted(a, q))
  {
    if q != [] && a.first >= q[0].first {
      InsertedIsSorted(a, q[1..]);
      InsertedHas(a, q[1..]);
      var r := Inserted(a, q[1..]);
      forall x | x in r ensures q[0].first <= x.first {
        if x != a {
          var k :| 0 <= k < |q[1..]| && q[1..][k] == x;
          assert q[k + 1] == x;
        }
      }
      ConsSorted(q[0], r);
    }
  }

  lemma ConsSorted(a: AbortedTransaction, q: seq<AbortedTransaction>)
    requires SortedQueue(q) && forall x :: x in q ==> a.first <= x.first
    ensures SortedQueue([a] + q)
  {
    forall i, j | 0 <= i < j < |[a] + q| ensures ([a] + q)[i].first <= ([a] + q)[j].first { assert q[j - 1] in q; }
  }

  lemma {:induction false} SortedIsSorted(xs: seq<AbortedTransaction>)
    ensures SortedQueue(Sorted(xs)) && multiset(Sorted(xs)) == multiset(xs)
  {
    if xs != [] {
      var n := |xs| - 1;
      SortedIsSorted(xs[..n]);
      InsertedIsSorted(xs[n], Sorted(xs[..n]));
      InsertedHas(xs[n], Sorted(xs[..n]));
      assert xs == xs[..n] + [xs[n]];
    }
  }

  /**
   * What a broker answers to a fetch at an offset: the batches from the one that holds the
   * offset, or the next one, on; and the aborted transactions that reach into them.
   */
  ghost predicate Answers(log: seq<Batch>, txns: set<Transaction>, fetchOffset: int, lo: nat, hi: nat,
          aborted: seq<AbortedTransaction>) {
    && lo <= hi <= |log|
    && (forall i :: 0 <= i < lo ==> log[i].last < fetchOffset)
    && (lo < hi ==>
          && fetchOffset <= log[lo].last
          && (forall t :: t in txns && t.marker >= log[lo].base && t.first <= log[hi - 1].last ==>
                AbortedTransaction(t.pid, t.first) in aborted)
          && (forall a :: a in aborted ==>
                exists t :: t in txns && t.marker >= log[lo].base && t.pid == a.pid && t.first == a.first))
  }

  lemma StartTracks(log: seq<Batch>, txns: set<Transaction>, fetchOffset: int, lo: nat, hi: nat,
          aborted: seq<AbortedTransaction>)
    requires Answers(log, txns, fetchOffset, lo, hi, aborted) && lo < hi
    ensures Tracks(txns, log[lo].base - 1, log[hi - 1].last, Filter(Sorted(aborted), {}))
  {
    SortedIsSorted(aborted);
    var q, d := Sorted(aborted), log[lo].base - 1;
    forall a ensures a in q <==> a in aborted { assert a in multiset(q) <==> a in multiset(aborted); }
    forall a | a in q ensures exists t :: Open(txns, t, d) && t.pid == a.pid && t.first == a.first {
      var t :| t in txns && t.marker >= log[lo].base && t.pid == a.pid && t.first == a.first;
      assert Open(txns, t, d);
    }
  }

  lemma {:induction false} VisibleAppend(committed: bool, txns: set<Transaction>, a: seq<Batch>, b: seq<Batch>)
    ensures VisibleRecords(committed, txns, a + b) ==
            VisibleRecords(committed, txns, a) + VisibleRecords(committed, txns, b)
    decreases |a|
  {
    if a == [] {
      assert a + b == b && VisibleRecords(committed, txns, a) == [];
    } else {
      VisibleAppend(committed, txns, a[1..], b);
      assert (a + b)[0] == a[0] && (a + b)[1..] == a[1..] + b;
      var first := if Visible(committed, txns, a[0]) then a[0].records else [];
      JoinRecords(first, VisibleRecords(committed, txns, a[1..]), VisibleRecords(committed, txns, b));
    }
  }

  lemma JoinRecords(x: seq<Record>, y: seq<Record>, z: seq<Record>)
    ensures x + (y + z) == (x + y) + z
  {
  }

  /** Visible records ascend and lie inside their batches. */
  lemma {:induction false} VisibleAscend(committed: bool, txns: set<Transaction>, log: seq<Batch>)
    requires LogOk(log)
    ensures Ascending(VisibleRecords(committed, txns, log))
    ensures forall i :: 0 <= i < |VisibleRecords(committed, txns, log)| ==>
              log != [] && log[0].base <= VisibleRecords(committed, txns, log)[i].offset <= log[|log| - 1].last
    decreases |log|
  {
    if log != [] {
      VisibleAscend(committed, txns, log[1..]);
      if |log| > 1 { assert log[1..][0] == log[1] && log[0].last < log[1].base && log[0].last < log[|log| - 1].base; }
    }
  }

  /** The offset after a response: past its last batch. */
  function EndOffset(log: seq<Batch>, lo: nat, hi: nat, fetchOffset: int): int
    requires lo <= hi <= |log|
  {
    if lo < hi then log[hi - 1].last + 1 else fetchOffset
  }

  /** What the generator yields, and dropwhile lets pass, from a response. */
  function Delivered(committed: bool, log: seq<Batch>, fetchOffset: int, lo: nat, hi: nat,
          aborted: seq<AbortedTransaction>): seq<Record>
    requires lo <= hi <= |log|
  {
    var out := Output(committed, Filter(Sorted(aborted), {}), log[lo..hi]);
    out[Before(out, fetchOffset)..]
  }

  lemma OutputIsVisible(committed: bool, log: seq<Batch>, txns: set<Transaction>, fetchOffset: int, lo: nat, hi: nat,
          aborted: seq<AbortedTransaction>)
    requires LogOk(log) && TransactionsOk(log, txns) && Answers(log, txns, fetchOffset, lo, hi, aborted)
    ensures Output(committed, Filter(Sorted(aborted), {}), log[lo..hi]) == VisibleRecords(committed, txns, log[lo..hi])
  {
    if !committed {
      UncommittedIsFilter(Filter(Sorted(aborted), {}), txns, log[lo..hi]);
    } else if lo < hi {
      StartTracks(log, txns, fetchOffset, lo, hi, aborted);
      StreamIsFilter(log, txns, lo, lo, hi, Filter(Sorted(aborted), {}));
    } else {
      assert log[lo..hi] == [];
    }
  }

  /**
   * Read committed. For every well-formed log and every answer to a fetch, the one-pass
   * algorithm with its queue and set yields exactly the records of the whole log's visible
   * batches at the offsets from the fetch offset to the answer's end, in order.
   */
  lemma FilterIsExact(committed: bool, log: seq<Batch>, txns: set<Transaction>, fetchOffset: int, lo: nat, hi: nat,
          aborted: seq<AbortedTransaction>)
    requires LogOk(log) && TransactionsOk(log, txns) && Answers(log, txns, fetchOffset, lo, hi, aborted)
    ensures Delivered(committed, log, fetchOffset, lo, hi, aborted)
              == Window(VisibleRecords(committed, txns, log), fetchOffset, EndOffset(log, lo, hi, fetchOffset))
    ensures fetchOffset <= EndOffset(log, lo, hi, fetchOffset)
  {
    OutputIsVisible(committed, log, txns, fetchOffset, lo, hi, aborted);
    if lo < hi { SegmentIsWindow(committed, log, txns, fetchOffset, lo, hi); }
  }

  lemma SegmentIsWindow(committed: bool, log: seq<Batch>, txns: set<Transaction>, from: int, lo: nat, hi: nat)
    requires LogOk(log) && lo < hi <= |log| && from <= log[lo].last && forall i :: 0 <= i < lo ==> log[i].last < from
    ensures var mid := VisibleRecords(committed, txns, log[lo..hi]);
            mid[Before(mid, from)..] == Window(VisibleRecords(committed, txns, log), from, log[hi - 1].last + 1)
    ensures from <= log[hi - 1].last
  {
    VisibleAscend(committed, txns, log);
    LastsGrow(log, lo, hi);
    var a, b := SegmentOf(committed, log, txns, lo, hi);
    BatchesBefore(log, lo, hi, from);
    SegmentWindow(VisibleRecords(committed, txns, log), VisibleRecords(committed, txns, log[lo..hi]), a, b, from,
      log[hi - 1].last + 1);
  }

  lemma BatchesBefore(log: seq<Batch>, lo: nat, hi: nat, x: int)
    requires LogOk(log) && lo < hi <= |log| && forall i :: 0 <= i < lo ==> log[i].last < x
    ensures lo > 0 ==> log[lo - 1].last < x
    ensures hi < |log| ==> log[hi - 1].last < log[hi].base
  {
  }

  /** Where a segment's visible records lie among those of the whole log. */
  lemma SegmentOf(committed: bool, log: seq<Batch>, txns: set<Transaction>, lo: nat, hi: nat) returns (a: nat, b: nat)
    requires LogOk(log) && lo < hi <= |log|
    ensures var all := VisibleRecords(committed, txns, log);
            && a <= b <= |all| && all[a..b] == VisibleRecords(committed, txns, log[lo..hi])
            && (forall i :: 0 <= i < a ==> lo > 0 && all[i].offset <= log[lo - 1].last)
            && (forall i :: a <= i < b ==> all[i].offset <= log[hi - 1].last)
            && (forall i :: b <= i < |all| ==> hi < |log| && log[hi].base <= all[i].offset)
  {
    var pre, mid, post := VisibleRecords(committed, txns, log[..lo]), VisibleRecords(committed, txns, log[lo..hi]),
      VisibleRecords(committed, txns, log[hi..]);
    a, b := |pre|, |pre| + |mid|;
    VisibleSplit(committed, log, txns, lo, hi);
    assert log[..lo] == log[0..lo] && log[hi..] == log[hi..|log|];
    PartBounds(committed, log, txns, 0, lo);
    PartBounds(committed, log, txns, lo, hi);
    PartBounds(committed, log, txns, hi, |log|);
    Thirds(VisibleRecords(committed, txns, log), pre, mid, post);
  }

  /** The visible records of a part of the log lie inside that part. */
  lemma PartBounds(committed: bool, log: seq<Batch>, txns: set<Transaction>, lo: nat, hi: nat)
    requires LogOk(log) && lo <= hi <= |log|
    ensures forall i :: 0 <= i < |VisibleRecords(committed, txns, log[lo..hi])| ==>
              lo < hi && log[lo].base <= VisibleRecords(committed, txns, log[lo..hi])[i].offset <= log[hi - 1].last
  {
    var part := log[lo..hi];
    PartOk(log, part, lo, hi);
    VisibleAscend(committed, txns, part);
    if lo < hi { assert part[0] == log[lo] && part[|part| - 1] == log[hi - 1]; }
  }

  lemma PartOk(log: seq<Batch>, part: seq<Batch>, lo: nat, hi: nat)
    requires LogOk(log) && lo <= hi <= |log| && part == log[lo..hi]
    ensures LogOk(part)
  {
    forall i, j | 0 <= i < j < |part|
      ensures part[i].last < part[j].base
    {
      assert part[i] == log[lo + i] && part[j] == log[lo + j];
    }
  }

  lemma Thirds(all: seq<Record>, pre: seq<Record>, mid: seq<Record>, post: seq<Record>)
    requires all == pre + (mid + post)
    ensures all[|pre|..|pre| + |mid|] == mid
    ensures forall i :: 0 <= i < |pre| ==> all[i] == pre[i]
    ensures forall i :: |pre| <= i < |pre| + |mid| ==> all[i] == mid[i - |pre|]
    ensures forall i :: |pre| + |mid| <= i < |all| ==> all[i] == post[i - |pre| - |mid|]
  {
  }

  lemma VisibleSplit(committed: bool, log: seq<Batch>, txns: set<Transaction>, lo: nat, hi: nat)
    requires lo <= hi <= |log|
    ensures VisibleRecords(committed, txns, log) == VisibleRecords(committed, txns, log[..lo])
              + (VisibleRecords(committed, txns, log[lo..hi]) + VisibleRecords(committed, txns, log[hi..]))
  {
    assert log == log[..lo] + (log[lo..hi] + log[hi..]);
    VisibleAppend(committed, txns, log[..lo], log[lo..hi] + log[hi..]);
    VisibleAppend(committed, txns, log[lo..hi], log[hi..]);
  }

  lemma SegmentWindow(all: seq<Record>, mid: seq<Record>, a: nat, b: nat, from: int, to: int)
    requires Ascending(all) && from <= to && a <= b <= |all| && mid == all[a..b]
    requires forall i :: 0 <= i < a ==> all[i].offset < from
    requires forall i :: a <= i < b ==> all[i].offset < to
    requires forall i :: b <= i < |all| ==> to <= all[i].offset
    ensures Window(all, from, to) == mid[Before(mid, from)..]
  {
    BeforeIs(all, to, b);
    BeforeGrows(all, from, to);
    var k := Before(all, from);
    SplitInside(all, a, from);
    SliceBefore(all, mid, a, b, from, k);
    SliceOfSlice(all, mid, a, b, k);
  }

  lemma SplitInside(all: seq<Record>, a: nat, x: int)
    requires Ascending(all) && a <= |all| && forall i :: 0 <= i < a ==> all[i].offset < x
    ensures a <= Before(all, x)
    ensures forall i :: 0 <= i < Before(all, x) ==> all[i].offset < x
    ensures forall i :: Before(all, x) <= i < |all| ==> x <= all[i].offset
  {
    BeforeSplits(all, x);
    if Before(all, x) < |all| { assert x <= all[Before(all, x)].offset; }
  }

  lemma SliceBefore(all: seq<Record>, mid: seq<Record>, a: nat, b: nat, x: int, k: nat)
    requires Ascending(all) && a <= k <= b <= |all| && mid == all[a..b]
    requires forall i :: 0 <= i < k ==> all[i].offset < x
    requires forall i :: k <= i < |all| ==> x <= all[i].offset
    ensures Before(mid, x) == k - a
  {
    assert forall i :: 0 <= i < |mid| ==> mid[i] == all[a + i];
    BeforeIs(mid, x, k - a);
  }

  lemma SliceOfSlice(all: seq<Record>, mid: seq<Record>, a: nat, b: nat, k: nat)
    requires a <= k <= b <= |all| && mid == all[a..b]
    ensures mid[k - a..] == all[k..b]
  {
  }
}
