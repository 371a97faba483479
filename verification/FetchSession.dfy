/**
 * Incremental fetch sessions (KIP-227): the client's FetchSessionHandler and
 * FetchMetadata, and a broker that keeps the other half of the session.
 */
module FetchSession {
  import opened Common

  const MAX_EPOCH: int := 2147483647
  const INVALID_SESSION_ID: int := 0
  const THROTTLED_SESSION_ID: int := -1
  const INITIAL_EPOCH: int := 0
  const FINAL_EPOCH: int := -1

  datatype Metadata = Metadata(sessionId: int, epoch: int)
  {
    predicate IsFull() { epoch == INITIAL_EPOCH || epoch == FINAL_EPOCH }

    function NextCloseExisting(): Metadata { Metadata(sessionId, INITIAL_EPOCH) }

    function NextIncremental(): Metadata { Metadata(sessionId, NextEpoch(epoch)) }
  }

  function NextEpoch(prev: int): int {
    if prev < 0 then FINAL_EPOCH else if prev == MAX_EPOCH then 1 else prev + 1
  }

  const INITIAL := Metadata(INVALID_SESSION_ID, INITIAL_EPOCH)

  function NewIncremental(sessionId: int): Metadata {
    Metadata(sessionId, NextEpoch(INITIAL_EPOCH))
  }

  /** The epoch of a session's n-th request. */
  function EpochAfter(n: nat): int {
    if n == 0 then INITIAL_EPOCH else NextEpoch(EpochAfter(n - 1))
  }

  /** However long a session lives, its epochs run through 1..MAX_EPOCH and start again at 1. */
  lemma {:induction false} EpochsWrap(n: nat)
    requires n > 0
    ensures EpochAfter(n) == 1 + (n - 1) % MAX_EPOCH
    ensures 1 <= EpochAfter(n) <= MAX_EPOCH && !Metadata(0, EpochAfter(n)).IsFull()
  {
    if n > 1 {
      EpochsWrap(n - 1);
      WrapStep(n - 2);
    }
  }

  lemma WrapStep(k: nat)
    ensures (k + 1) % MAX_EPOCH == if k % MAX_EPOCH == MAX_EPOCH - 1 then 0 else k % MAX_EPOCH + 1
  {
    var q, r := k / MAX_EPOCH, k % MAX_EPOCH;
    assert k + 1 == MAX_EPOCH * q + (r + 1);
    if r + 1 == MAX_EPOCH { assert k + 1 == MAX_EPOCH * (q + 1); }
  }

  /** What a request says about one partition. */
  datatype PartitionInfo = PartitionInfo(offset: int, leaderEpoch: int, maxBytes: int)

  type Partitions = map<TopicPartition, PartitionInfo>

  datatype Request = Request(toSend: Partitions, toForget: set<TopicPartition>, metadata: Metadata)

  datatype FetchError = FetchSessionIdNotFound | OtherError

  datatype Response = Response(error: Option<FetchError>, sessionId: int, tps: seq<TopicPartition>)

  datatype Handler = Handler(metadata: Metadata, partitions: Partitions)

  function ResponseSet(r: Response): set<TopicPartition> {
    set tp | tp in r.tps
  }

  // ----- what a request means ----------------------------------------------------------

  /** The partitions of a session after a delta. */
  function Apply(session: Partitions, toSend: Partitions, toForget: set<TopicPartition>): Partitions {
    (session - toForget) + toSend
  }

  function Delta(prev: Partitions, next: Partitions): Partitions {
    map tp | tp in next && (tp !in prev || prev[tp] != next[tp]) :: next[tp]
  }

  function Build(h: Handler, next: Partitions): Request {
    if h.metadata.IsFull() then Request(next, {}, h.metadata)
    else Request(Delta(h.partitions, next), h.partitions.Keys - next.Keys, h.metadata)
  }

  /** The delta between any two partition maps rebuilds the second, and no smaller delta does. */
  lemma DeltaRebuilds(prev: Partitions, next: Partitions)
    ensures Apply(prev, Delta(prev, next), prev.Keys - next.Keys) == next
    ensures forall send: Partitions, forget: set<TopicPartition> ::
            send.Keys !! forget && Apply(prev, send, forget) == next ==>
              Delta(prev, next).Keys <= send.Keys && (prev.Keys - next.Keys) <= forget
  {
    forall send: Partitions, forget: set<TopicPartition> | send.Keys !! forget && Apply(prev, send, forget) == next
      ensures Delta(prev, next).Keys <= send.Keys && (prev.Keys - next.Keys) <= forget
    {
      forall tp | tp in prev.Keys - next.Keys ensures tp in forget { assert tp !in Apply(prev, send, forget); }
      forall tp | tp in Delta(prev, next) ensures tp in send {
        assert Apply(prev, send, forget)[tp] == next[tp];
      }
    }
  }

  // ----- the client's reaction ---------------------------------------------------------

  /** The metadata after a response, and whether the response is used. */
  function React(h: Handler, r: Response): (Metadata, bool) {
    if r.error == Some(FetchSessionIdNotFound) then (INITIAL, false)
    else if r.error.Some? then (h.metadata.NextCloseExisting(), false)
    else if h.metadata.IsFull() then
      if ResponseSet(r) != h.partitions.Keys then (INITIAL, false)
      else if r.sessionId == INVALID_SESSION_ID then (INITIAL, true)
      else if r.sessionId == THROTTLED_SESSION_ID then (h.metadata, true)
      else (NewIncremental(r.sessionId), true)
    else if !(ResponseSet(r) <= h.partitions.Keys) then (h.metadata.NextCloseExisting(), false)
    else if r.sessionId == INVALID_SESSION_ID then (INITIAL, true)
    else if r.sessionId == THROTTLED_SESSION_ID then (h.metadata, true)
    else (h.metadata.NextIncremental(), true)
  }

  /**
   * The response has no error and answers the request: a full one for every partition of the
   * session and no other, an incremental one for no other.
   */
  predicate Usable(h: Handler, r: Response) {
    && r.error.None?
    && (forall tp :: tp in r.tps ==> tp in h.partitions)
    && (h.metadata.IsFull() ==> forall tp :: tp in h.partitions ==> tp in r.tps)
  }

  /** Exactly the usable responses are used, whoever wrote them. */
  lemma UsedIffUsable(h: Handler, r: Response)
    ensures React(h, r).1 <==> Usable(h, r)
  {
    assert forall tp :: tp in ResponseSet(r) <==> tp in r.tps;
    assert ResponseSet(r) == h.partitions.Keys <==>
        (forall tp :: tp in r.tps ==> tp in h.partitions) && (forall tp :: tp in h.partitions ==> tp in r.tps);
  }

  /**
   * What the next request carries. A session the broker does not know is forgotten, any other
   * error or an incremental response with strange partitions closes the session of the request, a
   * usable response opens or continues the session it names, and a throttled one changes nothing.
   */
  lemma NextRequestCarries(h: Handler, r: Response, next: Partitions)
    requires 0 <= h.metadata.epoch <= MAX_EPOCH
    ensures var req := Build(Handler(React(h, r).0, h.partitions), next);
            var (id, epoch) := (req.metadata.sessionId, req.metadata.epoch);
            && (r.error == Some(FetchSessionIdNotFound) ==> id == 0 && epoch == 0)
            && (r.error == Some(OtherError) ==> id == h.metadata.sessionId && epoch == 0)
            && (r.error.None? && !Usable(h, r) ==>
                  id == (if h.metadata.epoch == 0 then 0 else h.metadata.sessionId) && epoch == 0)
            && (Usable(h, r) && r.sessionId == 0 ==> id == 0 && epoch == 0)
            && (Usable(h, r) && r.sessionId == -1 ==> id == h.metadata.sessionId && epoch == h.metadata.epoch)
            && (Usable(h, r) && r.sessionId != 0 && r.sessionId != -1 ==>
                  && id == (if h.metadata.epoch == 0 then r.sessionId else h.metadata.sessionId)
                  && epoch == h.metadata.epoch % MAX_EPOCH + 1)
            && (epoch == 0 ==> req.toSend == next && req.toForget == {})
            && (epoch != 0 ==> Apply(h.partitions, req.toSend, req.toForget) == next)
  {
    UsedIffUsable(h, r);
    DeltaRebuilds(h.partitions, next);
  }

  lemma NoExtras<T>(a: set<T>, b: set<T>)
    ensures a - b == {} <==> a <= b
  {
    if a - b == {} {
      forall x | x in a ensures x in b { assert x !in a - b; }
    }
  }

  class FetchSessionHandler {
    var nextMetadata: Metadata
    var sessionPartitions: Partitions

    function Value(): Handler
      reads this
    {
      Handler(nextMetadata, sessionPartitions)
    }

    constructor ()
      ensures Value() == Handler(INITIAL, map[])
    {
      nextMetadata, sessionPartitions := INITIAL, map[];
    }

    /** build_next: the session becomes the wanted partitions, the request says how. */
    method BuildNext(next: Partitions) returns (request: Request)
      modifies this`sessionPartitions
      ensures sessionPartitions == next
      ensures request == Build(old(Value()), next)
    {
      if nextMetadata.IsFull() {
        sessionPartitions := next;
        return Request(next, {}, nextMetadata);
      }
      ghost var prev := sessionPartitions;
      var prevTps, nextTps := sessionPartitions.Keys, next.Keys;
      var added, removed := nextTps - prevTps, prevTps - nextTps;
      Add(next, added);
      Remove(removed);
      assert forall tp :: tp in nextTps * prevTps ==> tp in sessionPartitions && sessionPartitions[tp] == prev[tp];
      var altered := Alter(next, nextTps * prevTps);
      var toSend := map tp | tp in next && (tp in added || tp in altered) :: next[tp];
      assert toSend == Delta(prev, next);
      assert sessionPartitions == next;
      return Request(toSend, removed, nextMetadata);
    }

    method Add(next: Partitions, added: set<TopicPartition>)
      requires added <= next.Keys
      modifies this`sessionPartitions
      ensures sessionPartitions == old(sessionPartitions) + (map tp | tp in added :: next[tp])
    {
      var todo := added;
      while todo != {}
        invariant todo <= added
        invariant sessionPartitions == old(sessionPartitions) + (map tp | tp in added - todo :: next[tp])
        decreases |todo|
      {
        var tp := Next(todo);
        todo := todo - {tp};
        sessionPartitions := sessionPartitions[tp := next[tp]];
      }
    }

    method Remove(removed: set<TopicPartition>)
      modifies this`sessionPartitions
      ensures sessionPartitions == old(sessionPartitions) - removed
    {
      var todo := removed;
      while todo != {}
        invariant todo <= removed && sessionPartitions == old(sessionPartitions) - (removed - todo)
        decreases |todo|
      {
        var tp := Next(todo);
        todo := todo - {tp};
        sessionPartitions := sessionPartitions - {tp};
      }
    }

    method Alter(next: Partitions, both: set<TopicPartition>) returns (altered: set<TopicPartition>)
      requires both <= next.Keys && both <= sessionPartitions.Keys
      modifies this`sessionPartitions
      ensures sessionPartitions.Keys == old(sessionPartitions).Keys
      ensures forall tp :: tp in sessionPartitions ==>
              sessionPartitions[tp] == if tp in both then next[tp] else old(sessionPartitions)[tp]
      ensures forall tp :: tp in altered <==> tp in both && next[tp] != old(sessionPartitions)[tp]
    {
      altered := {};
      var todo := both;
      while todo != {}
        invariant todo <= both && sessionPartitions.Keys == old(sessionPartitions).Keys
        invariant forall tp :: tp in sessionPartitions ==>
                    sessionPartitions[tp] == if tp in both && tp !in todo then next[tp] else old(sessionPartitions)[tp]
        invariant forall tp :: tp in altered <==> tp in both && tp !in todo && next[tp] != old(sessionPartitions)[tp]
        decreases |todo|
      {
        var tp := Next(todo);
        todo := todo - {tp};
        if next[tp] != sessionPartitions[tp] {
          sessionPartitions := sessionPartitions[tp := next[tp]];
          altered := altered + {tp};
        }
      }
    }

    /** handle_response; the answer says whether the response's data is used. */
    method HandleResponse(r: Response) returns (used: bool)
      modifies this`nextMetadata
      ensures (nextMetadata, used) == React(old(Value()), r)
      ensures used <==> Usable(old(Value()), r)
    {
      UsedIffUsable(Value(), r);
      if r.error.Some? {
        if r.error.value == FetchSessionIdNotFound {
          nextMetadata := INITIAL;
        } else {
          nextMetadata := nextMetadata.NextCloseExisting();
        }
        return false;
      }
      var responseTps := set tp | tp in r.tps;
      var sessionTps := sessionPartitions.Keys;
      if nextMetadata.IsFull() {
        if responseTps != sessionTps {
          nextMetadata := INITIAL;
          return false;
        } else if r.sessionId == INVALID_SESSION_ID {
          nextMetadata := INITIAL;
        } else if r.sessionId != THROTTLED_SESSION_ID {
          nextMetadata := NewIncremental(r.sessionId);
        }
      } else {
        NoExtras(responseTps, sessionTps);
        if responseTps - sessionTps != {} {
          nextMetadata := nextMetadata.NextCloseExisting();
          return false;
        } else if r.sessionId == INVALID_SESSION_ID {
          nextMetadata := INITIAL;
        } else if r.sessionId != THROTTLED_SESSION_ID {
          nextMetadata := nextMetadata.NextIncremental();
        }
      }
      return true;
    }

    method HandleError()
      modifies this`nextMetadata
      ensures nextMetadata == old(nextMetadata).NextCloseExisting()
    {
      nextMetadata := nextMetadata.NextCloseExisting();
    }
  }

  // ----- the broker --------------------------------------------------------------------

  /** A cached session: its partitions, and the epoch its next request must carry. */
  datatype Session = Session(partitions: Partitions, epoch: int)

  /** What the broker is free to decide: fail, keep a session or not, under which new id, which partitions to answer. */
  datatype Verdict = Verdict(fail: bool, keep: bool, newId: int, tps: seq<TopicPartition>)

  function Serve(sessions: map<int, Session>, req: Request, v: Verdict): (map<int, Session>, Response) {
    var id := req.metadata.sessionId;
    if v.fail then (sessions, Response(Some(OtherError), INVALID_SESSION_ID, []))
    else if req.metadata.IsFull() then
      if v.keep && req.metadata.epoch == INITIAL_EPOCH then
        ((sessions - {id})[v.newId := Session(req.toSend, NextEpoch(INITIAL_EPOCH))], Response(None, v.newId, v.tps))
      else (sessions - {id}, Response(None, INVALID_SESSION_ID, v.tps))
    else if id !in sessions then (sessions, Response(Some(FetchSessionIdNotFound), INVALID_SESSION_ID, []))
    else if sessions[id].epoch != req.metadata.epoch then (sessions, Response(Some(OtherError), INVALID_SESSION_ID, []))
    else if !v.keep then (sessions - {id}, Response(None, INVALID_SESSION_ID, v.tps))
    else
      (sessions[id := Session(Apply(sessions[id].partitions, req.toSend, req.toForget), NextEpoch(req.metadata.epoch))],
       Response(None, id, v.tps))
  }

  // ----- runs --------------------------------------------------------------------------

  /** The one request to the node that may be pending, and how far it got. */
  datatype Phase = Idle | Sent(request: Request) | Answered(response: Response)

  datatype World = World(
    client: Handler,
    phase: Phase,
    sessions: map<int, Session>,
    usedIds: set<int>,
    lost: set<Request>)        // given up by the client; the broker may still get to them

  datatype Event =
    | Send(next: Partitions)
    | Process(verdict: Verdict)
    | Receive
    | Fail                                  // the client sees an error instead of the response
    | ProcessLost(request: Request, verdict: Verdict)
    | Evict(id: int)

  function Start(): World {
    World(Handler(INITIAL, map[]), Idle, map[], {}, {})
  }

  /** New ids are new, and neither of the two reserved numbers. */
  predicate FreshId(w: World, id: int) {
    id !in w.usedIds && id != INVALID_SESSION_ID && id != THROTTLED_SESSION_ID
  }

  predicate Enabled(w: World, e: Event) {
    match e
    case Send(next) => w.phase.Idle? && next != map[]   // no request pending, and something to fetch from the node
    case Process(v) => w.phase.Sent? && FreshId(w, v.newId)
    case Receive => w.phase.Answered?
    case Fail => !w.phase.Idle?
    case ProcessLost(r, v) => r in w.lost && FreshId(w, v.newId)
    case Evict(_) => true
  }

  function Step(w: World, e: Event): World
    requires Enabled(w, e)
  {
    match e
    case Send(next) => w.(client := Handler(w.client.metadata, next), phase := Sent(Build(w.client, next)))
    case Process(v) =>
      var (sessions, r) := Serve(w.sessions, w.phase.request, v);
      w.(sessions := sessions, phase := Answered(r), usedIds := w.usedIds + {v.newId})
    case Receive => w.(client := w.client.(metadata := React(w.client, w.phase.response).0), phase := Idle)
    case Fail =>
      w.(client := w.client.(metadata := w.client.metadata.NextCloseExisting()), phase := Idle,
         lost := if w.phase.Sent? then w.lost + {w.phase.request} else w.lost)
    case ProcessLost(r, v) =>
      w.(sessions := Serve(w.sessions, r, v).0, lost := w.lost - {r}, usedIds := w.usedIds + {v.newId})
    case Evict(id) => w.(sessions := w.sessions - {id})
  }

  predicate ValidRun(w: World, es: seq<Event>)
    decreases es
  {
    es == [] || (Enabled(w, es[0]) && ValidRun(Step(w, es[0]), es[1..]))
  }

  function Run(w: World, es: seq<Event>): World
    requires ValidRun(w, es)
    decreases es
  {
    if es == [] then w else Run(Step(w, es[0]), es[1..])
  }

  // ----- the invariant -----------------------------------------------------------------

  predicate Known(w: World, id: int) {
    id in w.usedIds || id == INVALID_SESSION_ID
  }

  /** The broker's session `id`, if it is still there, is this. */
  predicate Agrees(w: World, id: int, partitions: Partitions, epoch: int) {
    id in w.sessions ==> w.sessions[id] == Session(partitions, epoch)
  }

  /** The id of the session the client is in, or will be in when it reads the response. */
  predicate Current(w: World, id: int) {
    || (!w.client.metadata.IsFull() && w.client.metadata.sessionId == id)
    || (w.phase.Answered? && w.phase.response.error.None? && w.phase.response.sessionId == id
         && id != INVALID_SESSION_ID)
  }

  ghost predicate Numbers(w: World) {
    && 0 <= w.client.metadata.epoch <= MAX_EPOCH
    && INVALID_SESSION_ID !in w.usedIds && THROTTLED_SESSION_ID !in w.usedIds
    && Known(w, w.client.metadata.sessionId)
    && (!w.client.metadata.IsFull() ==> w.client.metadata.sessionId in w.usedIds)
    && (forall id :: id in w.sessions ==> id in w.usedIds)
    && (forall r :: r in w.lost ==> Known(w, r.metadata.sessionId) && !Current(w, r.metadata.sessionId))
  }

  ghost predicate Mirrored(w: World) {
    var m, parts := w.client.metadata, w.client.partitions;
    match w.phase
    case Idle => !m.IsFull() ==> Agrees(w, m.sessionId, parts, m.epoch)
    case Sent(req) =>
      && req.metadata == m
      && (m.IsFull() ==> req.toSend == parts && req.toForget == {})
      && (!m.IsFull() && m.sessionId in w.sessions ==>
            var session := w.sessions[m.sessionId];
            session.epoch == m.epoch && req == Build(Handler(m, session.partitions), parts))
    case Answered(r) =>
      && (r.error.None? && r.sessionId != INVALID_SESSION_ID ==>
            && r.sessionId in w.usedIds
            && (!m.IsFull() ==> r.sessionId == m.sessionId)
            && Agrees(w, r.sessionId, parts, NextEpoch(m.epoch)))
  }

  ghost predicate Invariant(w: World) {
    Numbers(w) && Mirrored(w)
  }

  lemma SendKeeps(w: World, e: Event)
    requires Invariant(w) && e.Send? && Enabled(w, e)
    ensures Invariant(Step(w, e))
  {
    DeltaRebuilds(w.client.partitions, e.next);
  }

  lemma ProcessKeeps(w: World, e: Event)
    requires Invariant(w) && e.Process? && Enabled(w, e)
    ensures Invariant(Step(w, e))
  {
    var id := w.client.metadata.sessionId;
    if id in w.sessions { DeltaRebuilds(w.sessions[id].partitions, w.client.partitions); }
  }

  lemma ReceiveKeeps(w: World, e: Event)
    requires Invariant(w) && e.Receive? && Enabled(w, e)
    ensures Invariant(Step(w, e))
  {
  }

  lemma LostKeeps(w: World, e: Event)
    requires Invariant(w) && (e.Fail? || e.ProcessLost? || e.Evict?) && Enabled(w, e)
    ensures Invariant(Step(w, e))
  {
  }

  lemma StepKeepsInvariant(w: World, e: Event)
    requires Invariant(w) && Enabled(w, e)
    ensures Invariant(Step(w, e))
  {
    match e {
      case Send(_) => SendKeeps(w, e);
      case Process(_) => ProcessKeeps(w, e);
      case Receive => ReceiveKeeps(w, e);
      case Fail => LostKeeps(w, e);
      case ProcessLost(_, _) => LostKeeps(w, e);
      case Evict(_) => LostKeeps(w, e);
    }
  }

  lemma {:induction false} RunKeepsInvariant(w: World, es: seq<Event>)
    requires Invariant(w) && ValidRun(w, es)
    ensures Invariant(Run(w, es))
    decreases es
  {
    if es != [] {
      StepKeepsInvariant(w, es[0]);
      RunKeepsInvariant(Step(w, es[0]), es[1..]);
    }
  }

  /**
   * The mirror. In every run, with sessions evicted, requests and responses lost, and lost
   * requests processed late: between requests, if the client is in a session the broker still
   * has, both hold the same partitions and the same epoch; and when the broker gets an
   * incremental request for a session it still has, it accepts it and its partitions become
   * exactly the ones the client wants. Epochs stay in 1..MAX_EPOCH while in a session.
   */
  lemma SessionMirror(es: seq<Event>, v: Verdict)
    requires ValidRun(Start(), es)
    ensures var w := Run(Start(), es);
            var m := w.client.metadata;
            !m.IsFull() ==>
              && 1 <= m.epoch <= MAX_EPOCH
              && (w.phase.Idle? && m.sessionId in w.sessions ==>
                    w.sessions[m.sessionId] == Session(w.client.partitions, m.epoch))
              && (w.phase.Sent? && m.sessionId in w.sessions && !v.fail && v.keep ==>
                    var (sessions, r) := Serve(w.sessions, w.phase.request, v);
                    && r.error.None? && m.sessionId in sessions
                    && sessions[m.sessionId] == Session(w.client.partitions, NextEpoch(m.epoch)))
  {
    RunKeepsInvariant(Start(), es);
    var w := Run(Start(), es);
    var id := w.client.metadata.sessionId;
    if id in w.sessions { DeltaRebuilds(w.sessions[id].partitions, w.client.partitions); }
  }

  /**
   * A throttled reply (session id -1) to an incremental request that the broker did not carry
   * out: the client goes on as if it had been, so the mirror survives exactly if the request
   * asked for no change.
   */
  lemma ThrottledReplyKeepsMirror(es: seq<Event>)
    requires ValidRun(Start(), es)
    requires var w := Run(Start(), es);
             w.phase.Sent? && !w.client.metadata.IsFull() && w.client.metadata.sessionId in w.sessions
    ensures var w := Run(Start(), es);
            Invariant(Throttled(w)) <==> w.phase.request.toSend == map[] && w.phase.request.toForget == {}
  {
    RunKeepsInvariant(Start(), es);
    var w := Run(Start(), es);
    NoDelta(w.sessions[w.client.metadata.sessionId].partitions, w.client.partitions);
  }

  /** The client has read a throttled reply to its pending request. */
  function Throttled(w: World): World {
    w.(client := w.client.(metadata := React(w.client, Response(None, THROTTLED_SESSION_ID, [])).0), phase := Idle)
  }

  ghost predicate Reachable(w: World) {
    exists es :: ValidRun(Start(), es) && Run(Start(), es) == w
  }

  lemma {:induction false} ExtendRun(w: World, es: seq<Event>, e: Event)
    requires ValidRun(w, es) && Enabled(Run(w, es), e)
    ensures ValidRun(w, es + [e]) && Run(w, es + [e]) == Step(Run(w, es), e)
    decreases es
  {
    if es == [] {
      assert es + [e] == [e];
      assert [e][1..] == [];
    } else {
      assert (es + [e])[1..] == es[1..] + [e];
      ExtendRun(Step(w, es[0]), es[1..], e);
    }
  }

  lemma Reach(w: World, e: Event)
    requires Reachable(w) && Enabled(w, e)
    ensures Reachable(Step(w, e))
  {
    var es :| ValidRun(Start(), es) && Run(Start(), es) == w;
    ExtendRun(Start(), es, e);
  }

  const TP0 := TopicPartition("t", 0)
  const TP1 := TopicPartition("t", 1)
  const ONE: Partitions := map[TP0 := PartitionInfo(0, -1, 1)]
  const TWO: Partitions := map[TP0 := PartitionInfo(0, -1, 1), TP1 := PartitionInfo(0, -1, 1)]

  /** In session 7 with two partitions. */
  lemma SessionIsReachable() returns (w: World)
    ensures Reachable(w) && w.phase.Idle? && w.client == Handler(Metadata(7, 1), TWO) && 7 in w.sessions
  {
    var w0 := Start();
    assert ValidRun(w0, []) && Run(w0, []) == w0;
    assert TP0 in TWO;
    Reach(w0, Send(TWO));
    var w1, e := Step(w0, Send(TWO)), Process(Verdict(false, true, 7, [TP0, TP1]));
    assert w1.phase.request == Request(TWO, {}, INITIAL);
    Reach(w1, e);
    var w2 := Step(w1, e);
    assert ResponseSet(w2.phase.response) == {TP0, TP1} == w2.client.partitions.Keys;
    Reach(w2, Receive);
    w := Step(w2, Receive);
  }

  /** Such a request exists: a session is opened for two partitions, and then the client drops one of them. */
  lemma ThrottledReplyCanBreakMirror()
    ensures exists w ::
              Reachable(w) && w.phase.Sent? && !w.client.metadata.IsFull() && w.client.metadata.sessionId in w.sessions
              && w.phase.request.toForget == {TP1} && !Invariant(Throttled(w))
  {
    var w0 := SessionIsReachable();
    assert TP0 in ONE;
    Reach(w0, Send(ONE));
    var w := Step(w0, Send(ONE));
    assert w.phase.request.toForget == TWO.Keys - ONE.Keys == {TP1};
    var es :| ValidRun(Start(), es) && Run(Start(), es) == w;
    ThrottledReplyKeepsMirror(es);
  }

  lemma NoDelta(prev: Partitions, next: Partitions)
    ensures Delta(prev, next) == map[] && prev.Keys - next.Keys == {} <==> prev == next
  {
    DeltaRebuilds(prev, next);
    if prev == next { assert Delta(prev, next) == map[]; }
  }

  // ----- pending requests of all nodes -------------------------------------------------

  /** The bookkeeping around the handlers: at most one pending request per node, with its fetch offsets. */
  class FetchRequests {
    var handlers: map<int, Handler>
    var pending: map<int, map<TopicPartition, int>>

    /** The session of a node with a pending request covers exactly the partitions with a recorded fetch offset. */
    ghost predicate Valid()
      reads this
    {
      forall n :: n in pending ==> n in handlers && handlers[n].partitions.Keys == pending[n].Keys
    }

    constructor ()
      ensures Valid()
    {
      handlers, pending := map[], map[];
    }

    /** _create_fetch_requests and send_fetches, for one node without a pending request. */
    method SendFetch(n: int, next: Partitions) returns (sent: Option<Request>)
      requires Valid()
      modifies this
      ensures Valid()
      ensures sent.Some? <==> n !in old(pending)
      ensures sent.Some? ==>
              var h := if n in old(handlers) then old(handlers)[n] else Handler(INITIAL, map[]);
              sent.value == Build(h, next) && handlers == old(handlers)[n := Handler(h.metadata, next)]
      ensures sent.None? ==> handlers == old(handlers)
      ensures pending == if sent.Some? then old(pending)[n := (map tp | tp in next :: next[tp].offset)]
              else old(pending)
    {
      if n in pending { return None; }
      var handler := new FetchSessionHandler();
      if n in handlers {
        handler.nextMetadata, handler.sessionPartitions := handlers[n].metadata, handlers[n].partitions;
      }
      var request := handler.BuildNext(next);
      handlers := handlers[n := handler.Value()];
      pending := pending[n := map tp | tp in next :: next[tp].offset];
      return Some(request);
    }

    /**
     * _handle_fetch_response. With fetch sessions every lookup of a fetch offset succeeds, for any
     * response at all. Without them (API versions below 7, or sessions disabled) the response is
     * not checked, and the lookups succeed exactly if it names only requested partitions.
     */
    method HandleFetchResponse(n: int, r: Response, sessions: bool)
      returns (fetches: Outcome<seq<(TopicPartition, int)>, TopicPartition>)
      requires Valid() && n in pending
      modifies this
      ensures Valid() && pending == old(pending) - {n}
      ensures handlers == if sessions then old(handlers)[n :=
              old(handlers)[n].(metadata := React(old(handlers)[n], r).0)]
              else old(handlers)
      ensures var used := !sessions || Usable(old(handlers)[n], r);
              && (fetches.Returns? <==> !used || forall k :: 0 <= k < |r.tps| ==> r.tps[k] in old(pending)[n])
              && (sessions ==> fetches.Returns?)
              && (fetches.Returns? && !used ==> fetches.value == [])
              && (fetches.Returns? && used ==> Fetched(r.tps, old(pending)[n], fetches.value))
    {
      var offsets := pending[n];
      UsedIffUsable(handlers[n], r);
      var used := true;
      if sessions {
        var (m, verdict) := React(handlers[n], r);
        used := verdict;
        handlers := handlers[n := handlers[n].(metadata := m)];
      }
      pending := pending - {n};
      fetches := Returns([]);
      if used {
        for k := 0 to |r.tps|
          invariant fetches.Returns? && Fetched(r.tps[..k], offsets, fetches.value)
        {
          var tp := r.tps[k];
          if tp !in offsets { return Raises(tp); }
          fetches := Returns(fetches.value + [(tp, offsets[tp])]);
        }
        assert r.tps[..|r.tps|] == r.tps;
      }
    }

    /** Each completed fetch carries the offset of its request. */
    static predicate Fetched(tps: seq<TopicPartition>, offsets: map<TopicPartition, int>,
            fetches: seq<(TopicPartition, int)>) {
      && |fetches| == |tps|
      && forall k :: 0 <= k < |tps| ==> tps[k] in offsets && fetches[k] == (tps[k], offsets[tps[k]])
    }

    method HandleFetchError(n: int)
      requires Valid() && n in pending
      modifies this
      ensures Valid() && pending == old(pending) - {n}
      ensures handlers == old(handlers)[n :=
              old(handlers)[n].(metadata := old(handlers)[n].metadata.NextCloseExisting())]
    {
      handlers := handlers[n := handlers[n].(metadata := handlers[n].metadata.NextCloseExisting())];
      pending := pending - {n};
    }
  }
}
