/**
 * Fetch sessions with a broker that answers what it is asked: none of its answers is thrown away,
 * and sessions go on, or are opened anew after the broker has dropped them.
 */
module FetchAnswers {
  import opened Common
  import opened FetchSession

  /** A full request is answered for its partitions, an incremental one for partitions of the session it leaves. */
  predicate Honest(sessions: map<int, Session>, req: Request, v: Verdict) {
    var id := req.metadata.sessionId;
    if req.metadata.IsFull() then
      (forall tp :: tp in v.tps ==> tp in req.toSend) && forall tp :: tp in req.toSend ==> tp in v.tps
    else id in sessions ==>
      forall tp :: tp in v.tps ==> tp in Apply(sessions[id].partitions, req.toSend, req.toForget)
  }

  predicate HonestRun(w: World, es: seq<Event>)
    requires ValidRun(w, es)
    decreases es
  {
    es == [] || ((es[0].Process? ==> Honest(w.sessions, w.phase.request, es[0].verdict))
      && HonestRun(Step(w, es[0]), es[1..]))
  }

  /** An answer without error that is on its way can be used. */
  predicate Welcome(w: World) {
    w.phase.Answered? && w.phase.response.error.None? ==> Usable(w.client, w.phase.response)
  }

  lemma HonestAnswerIsWelcome(w: World, v: Verdict)
    requires Invariant(w) && Enabled(w, Process(v)) && Honest(w.sessions, w.phase.request, v)
    ensures Welcome(Step(w, Process(v)))
  {
    var id := w.client.metadata.sessionId;
    if id in w.sessions { DeltaRebuilds(w.sessions[id].partitions, w.client.partitions); }
  }

  lemma {:induction false} RunKeepsWelcome(w: World, es: seq<Event>)
    requires Invariant(w) && Welcome(w) && ValidRun(w, es) && HonestRun(w, es)
    ensures Invariant(Run(w, es)) && Welcome(Run(w, es))
    decreases es
  {
    if es != [] {
      StepKeepsInvariant(w, es[0]);
      if es[0].Process? { HonestAnswerIsWelcome(w, es[0].verdict); }
      RunKeepsWelcome(Step(w, es[0]), es[1..]);
    }
  }

  /**
   * In every run with an honest broker, whatever is lost, late or evicted: an answer that reaches the
   * client is used if and only if it has no error, and then names the session of the next request.
   */
  lemma AnswersAreUsed(es: seq<Event>)
    requires ValidRun(Start(), es) && HonestRun(Start(), es) && Run(Start(), es).phase.Answered?
    ensures var w := Run(Start(), es);
            var r, m, m1 := w.phase.response, w.client.metadata, Step(w, Receive).client.metadata;
            && (React(w.client, r).1 <==> r.error.None?)
            && (r.error.None? && r.sessionId != 0 ==> m1 == Metadata(r.sessionId, m.epoch % MAX_EPOCH + 1))
            && (r.error.None? && r.sessionId == 0 ==> m1 == Metadata(0, 0))
            && (r.error == Some(FetchSessionIdNotFound) ==> m1 == Metadata(0, 0))
            && (r.error == Some(OtherError) ==> m1 == Metadata(m.sessionId, 0))
  {
    RunKeepsWelcome(Start(), es);
    var w := Run(Start(), es);
    UsedIffUsable(w.client, w.phase.response);
  }

  /** One request and its answer, from sending to receiving. */
  function RoundTrip(w: World, next: Partitions, v: Verdict): World
    requires Enabled(w, Send(next)) && FreshId(w, v.newId)
  {
    Step(Step(Step(w, Send(next)), Process(v)), Receive)
  }

  /**
   * From any reachable state, a request that the broker answers honestly and keeps a session for:
   * the answer is used, and client and broker are in one session of exactly the wanted partitions,
   * the same as before if there was one. Had the broker dropped it, the client starts anew.
   */
  lemma SessionGoesOn(es: seq<Event>, next: Partitions, v: Verdict)
    requires ValidRun(Start(), es)
    requires var w := Run(Start(), es);
             && Enabled(w, Send(next)) && FreshId(w, v.newId) && !v.fail && v.keep
             && Honest(w.sessions, Build(w.client, next), v)
    ensures var w := Run(Start(), es);
            var w1, w2 := Step(Step(w, Send(next)), Process(v)), RoundTrip(w, next, v);
            var m := w.client.metadata;
            var epoch := m.epoch % MAX_EPOCH + 1;
            if m.epoch == 0 || m.sessionId in w.sessions then
              var id := if m.epoch == 0 then v.newId else m.sessionId;
              && React(w1.client, w1.phase.response).1
              && w2.client == Handler(Metadata(id, epoch), next)
              && id in w2.sessions && w2.sessions[id] == Session(next, epoch)
            else
              !React(w1.client, w1.phase.response).1 && w2.client == Handler(Metadata(0, 0), next)
  {
    RunKeepsInvariant(Start(), es);
    var w := Run(Start(), es);
    var w0 := Step(w, Send(next));
    StepKeepsInvariant(w, Send(next));
    HonestAnswerIsWelcome(w0, v);
    var w1 := Step(w0, Process(v));
    UsedIffUsable(w1.client, w1.phase.response);
    DeltaRebuilds(w.client.partitions, next);
  }
}
