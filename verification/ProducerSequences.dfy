/**
 * Producer ids and sequence numbers: what is written into a batch never changes, and a
 * partition's sequence number counts the records acknowledged under the current producer id.
 */
module ProducerSequences {
  import opened Common
  import opened ProducerModel
  import opened ProducerInvariants

  predicate StampedBy(b: Batch, p: ProducerIdAndEpoch) {
    b.stamp.Some? && b.stamp.value.pid == p.pid && b.stamp.value.epoch == p.epoch
  }

  /** Records of the partition's batches acknowledged under producer id p, counted from the responses alone. */
  function AckedRecords(bs: seq<Batch>, acks: seq<nat>, tp: TopicPartition, p: ProducerIdAndEpoch): nat {
    if acks == [] then 0
    else
      var i := acks[|acks| - 1];
      AckedRecords(bs, acks[..|acks| - 1], tp, p)
        + if i < |bs| && bs[i].tp == tp && StampedBy(bs[i], p) then |bs[i].records| else 0
  }

  ghost predicate StampOk(s: State, i: nat)
    requires i < |s.batches|
  {
    var b := s.batches[i];
    && (b.stamp.Some? ==> b.closed && b.stamp.value.pid in s.usedPids)
    && (s.producerId.Some? && StampedBy(b, s.producerId.value) ==> b.tp in s.sequences)
    && (b.inRetry || Holds(s, i) ==> b.stamp.Some?)
  }

  ghost predicate SequenceOk(s: State, tp: TopicPartition) {
    s.producerId.Some? ==>
      SequenceNumber(s, tp) == AckedRecords(s.batches, s.acks, tp, s.producerId.value) % SEQUENCE_SPACE
  }

  ghost predicate Sequenced(s: State) {
    && (s.producerId.Some? ==> s.producerId.value.pid in s.usedPids)
    && (s.producerId.None? ==> s.sequences == map[])
    && (forall i :: 0 <= i < |s.batches| ==> StampOk(s, i))
    && (forall i :: i in s.acks ==> i < |s.batches| && s.batches[i].stamp.Some? && s.batches[i].final.Some?)
    && (forall tp: TopicPartition :: SequenceOk(s, tp))
  }

  /** Sequence arithmetic: the wrapped addition is addition modulo 2^31 exactly while the sum stays below 2^32. */
  lemma IncrementWraps(base: nat, increment: nat)
    requires base <= MAX_SEQUENCE
    ensures base + increment < 2 * SEQUENCE_SPACE <==> IncrementedSequence(base, increment) <= MAX_SEQUENCE
    ensures base + increment < 2 * SEQUENCE_SPACE <==>
            IncrementedSequence(base, increment) == (base + increment) % SEQUENCE_SPACE
  {
  }

  /** Batch i is there in both, with the same partition, stamp and records. */
  predicate SameWriting(bs: seq<Batch>, bs': seq<Batch>, i: nat) {
    && i < |bs| && i < |bs'|
    && bs'[i].tp == bs[i].tp && bs'[i].stamp == bs[i].stamp && bs'[i].records == bs[i].records
  }

  lemma {:induction false} AckedFrame(bs: seq<Batch>, bs': seq<Batch>, acks: seq<nat>, tp: TopicPartition,
          p: ProducerIdAndEpoch)
    requires forall k :: 0 <= k < |acks| ==> SameWriting(bs, bs', acks[k])
    ensures AckedRecords(bs', acks, tp, p) == AckedRecords(bs, acks, tp, p)
  {
    if acks != [] {
      var n := |acks| - 1;
      forall k | 0 <= k < n ensures SameWriting(bs, bs', acks[..n][k]) { assert acks[..n][k] == acks[k]; }
      AckedFrame(bs, bs', acks[..n], tp, p);
      assert SameWriting(bs, bs', acks[n]);
    }
  }

  lemma {:induction false} AckedUnderFreshPid(bs: seq<Batch>, acks: seq<nat>, tp: TopicPartition, p: ProducerIdAndEpoch)
    requires forall k :: 0 <= k < |acks| ==> acks[k] < |bs| && !StampedBy(bs[acks[k]], p)
    ensures AckedRecords(bs, acks, tp, p) == 0
  {
    if acks != [] {
      AckedUnderFreshPid(bs, acks[..|acks| - 1], tp, p);
    }
  }

  /** Steps that acknowledge nothing and keep the producer id, or drop it. */
  lemma QuietStepKeepsSequences(s: State, s': State)
    requires Sequenced(s) && s'.acks == s.acks && s'.usedPids == s.usedPids
    requires s'.producerId == s.producerId || (s'.producerId.None? && s'.sequences == map[])
    requires s'.producerId.None? ==> s'.sequences == map[]
    requires forall tp: TopicPartition :: SequenceNumber(s', tp) == SequenceNumber(s, tp) || s'.producerId.None?
    requires |s.batches| <= |s'.batches| && forall i :: 0 <= i < |s'.batches| ==> StampOk(s', i)
    requires forall i :: i in s.acks && i < |s.batches| ==>
               && s'.batches[i].tp == s.batches[i].tp && s'.batches[i].stamp == s.batches[i].stamp
               && s'.batches[i].records == s.batches[i].records && s'.batches[i].final.Some?
    ensures Sequenced(s')
  {
    if s'.producerId.Some? {
      forall tp: TopicPartition ensures SequenceOk(s', tp) {
        assert SequenceOk(s, tp);
        forall k | 0 <= k < |s.acks|
          ensures SameWriting(s.batches, s'.batches, s.acks[k])
        {
          assert s.acks[k] in s.acks;
        }
        AckedFrame(s.batches, s'.batches, s.acks, tp, s.producerId.value);
      }
    }
  }

  /** Nothing that is written into batches changes; the producer id is kept or dropped. */
  ghost predicate KeepsStamps(s: State, s': State) {
    && |s'.batches| == |s.batches|
    && (forall i :: 0 <= i < |s.batches| ==>
          && s'.batches[i].tp == s.batches[i].tp && s'.batches[i].stamp == s.batches[i].stamp
          && s'.batches[i].records == s.batches[i].records && s'.batches[i].inRetry == s.batches[i].inRetry
          && (s.batches[i].closed ==> s'.batches[i].closed) && (s.batches[i].final.Some? ==> s'.batches[i].final.Some?))
    && (forall i: nat :: Holds(s', i) ==> Holds(s, i))
    && s'.acks == s.acks && s'.usedPids == s.usedPids
    && ((s'.producerId == s.producerId && s'.sequences == s.sequences)
          || (s'.producerId.None? && s'.sequences == map[]))
  }

  lemma KeepingStampsKeepsSequences(s: State, s': State)
    requires Sequenced(s) && KeepsStamps(s, s')
    ensures Sequenced(s')
  {
    forall j | 0 <= j < |s'.batches| ensures StampOk(s', j) { assert StampOk(s, j); }
    QuietStepKeepsSequences(s, s');
  }

  lemma AppendKeepsSequences(c: Config, s: State, e: Event)
    requires c.idempotent && Structure(s) && Sequenced(s) && e.Append? && Enabled(c, s, e)
    ensures Sequenced(Step(c, s, e).value)
  {
    var s' := Step(c, s, e).value;
    assert QueueOk(s, e.tp);
    AppendIs(c, s, e);
    if JoinsLast(s, e.tp, e.room) {
      var l := Queue(s, e.tp)[|Queue(s, e.tp)| - 1];
      assert BatchOk(s, l) && StampOk(s, l);
      JoinKeepsSequences(s, s', l);
    } else {
      assert |s.batches| !in s.inFlight && |s.batches| !in s.drained && |s.batches| !in s.awaiting;
      NewBatchKeepsSequences(s, s', e.tp);
    }
  }

  lemma JoinKeepsSequences(s: State, s': State, l: nat)
    requires Sequenced(s) && Joined(s, s', l) && s.batches[l].stamp.None? && s.batches[l].final.None?
    ensures Sequenced(s')
  {
    forall i | 0 <= i < |s'.batches| ensures StampOk(s', i) { assert StampOk(s, i); }
    QuietStepKeepsSequences(s, s');
  }

  lemma NewBatchKeepsSequences(s: State, s': State, tp: TopicPartition)
    requires Sequenced(s) && Started(s, s', tp) && !Holds(s, |s.batches|)
    ensures Sequenced(s')
  {
    forall i | 0 <= i < |s'.batches| ensures StampOk(s', i) { if i < |s.batches| { assert StampOk(s, i); } }
    QuietStepKeepsSequences(s, s');
  }

  lemma DrainKeepsSequences(c: Config, s: State, e: Event)
    requires c.idempotent && Structure(s) && Sequenced(s) && e.Drain? && Enabled(c, s, e)
    ensures Step(c, s, e).Returns? && Sequenced(Step(c, s, e).value)
  {
    DrainKeepsStructure(c, s, e);
    var s' := Step(c, s, e).value;
    var i := Queue(s, e.tp)[0];
    assert QueueOk(s, e.tp) && BatchOk(s, i) && StampOk(s, i) && i in Queue(s, e.tp);
    forall j | 0 <= j < |s'.batches| ensures StampOk(s', j) { assert StampOk(s, j); }
    QuietStepKeepsSequences(s, s');
  }

  lemma DoneKeepsStamps(s: State, i: nat, f: FinalState)
    requires i < |s.batches| && Done(s, i, f).Returns?
    ensures KeepsStamps(s, Done(s, i, f).value)
  {
  }

  lemma FailKeepsSequences(c: Config, s: State, i: nat, err: ProduceError)
    requires Sequenced(s) && i < |s.batches| && FailBatch(c, s, i, err).Returns?
    ensures Sequenced(FailBatch(c, s, i, err).value)
  {
    var t := NoteFailure(c, s, i, err);
    KeepingStampsKeepsSequences(s, t);
    DoneKeepsStamps(t, i, Failed);
    KeepingStampsKeepsSequences(t, Done(t, i, Failed).value);
  }

  lemma RetryOrFailKeepsSequences(c: Config, s: State, i: nat, err: ProduceError, now: int)
    requires c.idempotent && Structure(s) && Sequenced(s) && i in s.awaiting && s.expired == {}
    ensures var r := RetryOrFail(c, s.(awaiting := s.awaiting - {i}), i, err, now);
            r.Returns? && Sequenced(r.value)
  {
    RetryOrFailKeepsStructure(c, s, i, err, now);
    var s0 := s.(awaiting := s.awaiting - {i});
    KeepingStampsKeepsSequences(s, s0);
    if CanRetry(c, s0.batches[i], err, now) && Match(s0, s0.batches[i]) {
      var s' := Reenqueue(s0, i, now);
      assert StampOk(s, i);
      forall j | 0 <= j < |s'.batches| ensures StampOk(s', j) { assert StampOk(s0, j); }
      QuietStepKeepsSequences(s0, s');
    } else {
      FailKeepsSequences(c, s0, i, err);
    }
  }

  lemma SucceedKeepsSequences(c: Config, s: State, i: nat)
    requires c.idempotent && Structure(s) && Sequenced(s) && i in s.awaiting && s.expired == {}
    ensures var r := Succeed(c, s.(awaiting := s.awaiting - {i}), i);
            r.Returns? && Sequenced(r.value)
  {
    assert BatchOk(s, i) && StampOk(s, i);
    var s0 := s.(awaiting := s.awaiting - {i});
    KeepingStampsKeepsSequences(s, s0);
    DoneAndCounted(c, s0, i);
  }

  lemma DoneAndCounted(c: Config, s: State, i: nat)
    requires c.idempotent && Sequenced(s) && i < |s.batches| && s.batches[i].final != Some(Succeeded)
    requires s.batches[i].stamp.Some? && |s.batches[i].records| <= MAX_SEQUENCE
    ensures var r := Succeed(c, s, i); r.Returns? && Sequenced(r.value)
  {
    SucceedIs(c, s, i);
    var d := Done(s, i, Succeeded).value;
    DoneKeepsStamps(s, i, Succeeded);
    KeepingStampsKeepsSequences(s, d);
    AckIsCounted(c, d, i);
  }

  /** Success is completing the batch and counting the acknowledgement. */
  lemma SucceedIs(c: Config, s: State, i: nat)
    requires i < |s.batches| && s.batches[i].final != Some(Succeeded)
    ensures Done(s, i, Succeeded).Returns? && Done(s, i, Succeeded).value.acks == s.acks
    ensures Done(s, i, Succeeded).value.batches[i].final.Some?
    ensures Succeed(c, s, i) == CountAck(c, Done(s, i, Succeeded).value.(acks := s.acks + [i]), i)
  {
  }

  /** Counting the acknowledgement of a finished batch, in the response history and in the sequence number. */
  lemma AckIsCounted(c: Config, d: State, i: nat)
    requires c.idempotent && Sequenced(d) && i < |d.batches| && d.batches[i].stamp.Some? && d.batches[i].final.Some?
    requires |d.batches[i].records| <= MAX_SEQUENCE
    ensures var r := CountAck(c, d.(acks := d.acks + [i]), i); r.Returns? && Sequenced(r.value)
  {
    assert StampOk(d, i);
    var s' := CountAck(c, d.(acks := d.acks + [i]), i).value;
    forall j | 0 <= j < |s'.batches| ensures StampOk(s', j) { assert StampOk(d, j); }
    if d.producerId.Some? {
      forall tp: TopicPartition ensures SequenceOk(s', tp) {
        assert SequenceOk(d, tp);
        AckIsCountedOn(c, d, i, tp);
      }
    }
  }

  lemma AckIsCountedOn(c: Config, d: State, i: nat, tp: TopicPartition)
    requires c.idempotent && d.producerId.Some? && SequenceOk(d, tp) && i < |d.batches| && d.batches[i].stamp.Some?
    requires StampOk(d, i) && |d.batches[i].records| <= MAX_SEQUENCE
    ensures var r := CountAck(c, d.(acks := d.acks + [i]), i); r.Returns? && SequenceOk(r.value, tp)
  {
    var b, p, t := d.batches[i], d.producerId.value, d.(acks := d.acks + [i]);
    OneMoreAck(d.batches, d.acks, i, tp, p);
    if StampedBy(b, p) {
      var s' := t.(sequences := d.sequences[b.tp := IncrementedSequence(d.sequences[b.tp], |b.records|)]);
      assert CountAck(c, t, i) == Returns(s');
      if tp == b.tp { SumWraps(AckedRecords(d.batches, d.acks, tp, p), SequenceNumber(d, tp), |b.records|); }
    } else {
      assert CountAck(c, t, i) == Returns(t);
    }
  }

  /** Incrementing a count modulo 2^31 counts on. */
  lemma SumWraps(a: nat, base: nat, increment: nat)
    requires base == a % SEQUENCE_SPACE && increment <= MAX_SEQUENCE
    ensures IncrementedSequence(base, increment) == (a + increment) % SEQUENCE_SPACE
  {
    IncrementWraps(base, increment);
    assert (a % SEQUENCE_SPACE + increment) % SEQUENCE_SPACE == (a + increment) % SEQUENCE_SPACE;
  }

  lemma OneMoreAck(bs: seq<Batch>, acks: seq<nat>, i: nat, tp: TopicPartition, p: ProducerIdAndEpoch)
    requires i < |bs|
    ensures AckedRecords(bs, acks + [i], tp, p) ==
              AckedRecords(bs, acks, tp, p) + if bs[i].tp == tp && StampedBy(bs[i], p) then |bs[i].records| else 0
  {
    assert (acks + [i])[..|acks|] == acks;
  }

  lemma StepKeepsSequences(c: Config, s: State, e: Event)
    requires c.idempotent && Structure(s) && Sequenced(s) && Enabled(c, s, e)
    ensures Step(c, s, e).Returns? ==> Sequenced(Step(c, s, e).value)
    ensures Step(c, s, e).Raises? ==> Step(c, s, e).error == NotMuted || e.Compare?
  {
    StepKeepsStructure(c, s, e);
    match e {
      case Append(_, _, _, _, _, _) => AppendKeepsSequences(c, s, e);
      case Drain(_, _) => DrainKeepsSequences(c, s, e);
      case Respond(_, _, _) => RespondKeepsSequences(c, s, e);
      case NewPid(_, _) => NewPidKeepsSequences(c, s, e);
      case Compare(_, _) =>
      case _ => OtherStepsKeepSequences(c, s, e);
    }
  }

  lemma RespondKeepsSequences(c: Config, s: State, e: Event)
    requires c.idempotent && Structure(s) && Sequenced(s) && e.Respond? && Enabled(c, s, e)
    ensures Step(c, s, e).Returns? ==> Sequenced(Step(c, s, e).value)
    ensures Step(c, s, e).Raises? ==> Step(c, s, e).error == NotMuted
  {
    var s0 := s.(awaiting := s.awaiting - {e.id});
    var r: Result;
    if e.err.Some? {
      RetryOrFailKeepsSequences(c, s, e.id, e.err.value, e.now);
      r := RetryOrFail(c, s0, e.id, e.err.value, e.now);
    } else {
      SucceedKeepsSequences(c, s, e.id);
      r := Succeed(c, s0, e.id);
    }
    RespondKeepsCount(c, s, e);
    UnmuteKeepsSequences(c, r.value, e.id);
  }

  /** What a response does before it unmutes leaves the batches where they are. */
  lemma RespondKeepsCount(c: Config, s: State, e: Event)
    requires e.Respond? && Enabled(c, s, e)
    ensures var s0 := s.(awaiting := s.awaiting - {e.id});
            var r := if e.err.Some? then RetryOrFail(c, s0, e.id, e.err.value, e.now) else Succeed(c, s0, e.id);
            r.Returns? ==> |r.value.batches| == |s.batches| && Step(c, s, e) == Unmute(c, r.value, e.id)
  {
  }

  lemma NewPidKeepsSequences(c: Config, s: State, e: Event)
    requires Sequenced(s) && e.NewPid? && Enabled(c, s, e)
    ensures Sequenced(Step(c, s, e).value)
  {
    var s' := Step(c, s, e).value;
    forall j | 0 <= j < |s'.batches| ensures StampOk(s', j) { assert StampOk(s, j); }
    forall tp: TopicPartition ensures SequenceOk(s', tp) {
      forall k | 0 <= k < |s.acks|
        ensures s.acks[k] < |s.batches| && !StampedBy(s.batches[s.acks[k]], s'.producerId.value)
      {
        assert s.acks[k] in s.acks;
        assert StampOk(s, s.acks[k]);
      }
      AckedUnderFreshPid(s.batches, s.acks, tp, s'.producerId.value);
    }
  }

  lemma UnmuteKeepsSequences(c: Config, t: State, i: nat)
    requires Sequenced(t) && i < |t.batches|
    ensures var r := Unmute(c, t, i); if r.Returns? then Sequenced(r.value) else r.error == NotMuted
  {
    var r := Unmute(c, t, i);
    if r.Returns? { KeepingStampsKeepsSequences(t, r.value); }
  }

  lemma OtherStepsKeepSequences(c: Config, s: State, e: Event)
    requires c.idempotent && Structure(s) && Sequenced(s) && Enabled(c, s, e)
    requires e.Send? || e.ExpireQueued? || e.ExpireInFlight? || e.FailExpired? || e.ResetPid?
    requires Step(c, s, e).Returns?
    ensures Sequenced(Step(c, s, e).value)
  {
    if e.FailExpired? {
      var s0 := s.(expired := s.expired - {e.id});
      KeepingStampsKeepsSequences(s, s0);
      FailKeepsSequences(c, s0, e.id, TIMEOUT_ERROR);
    } else {
      KeepingStampsKeepsSequences(s, Step(c, s, e).value);
    }
  }
}
