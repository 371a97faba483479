/**
 * The two indexes ClusterMetadata builds from a metadata response: partitions by topic with
 * their leaders, and the partitions each broker leads.
 */
module ClusterIndex {
  import opened Common
  import SenderThread

  datatype PartitionData = PartitionData(partition: int, leader: int)

  datatype TopicData = TopicData(ok: bool, topic: string, partitions: seq<PartitionData>)

  datatype MetadataResponse = MetadataResponse(brokers: seq<int>, topics: seq<TopicData>)
  {
    /** A response that leaves the metadata as it is. */
    predicate Ignored() { (|topics| == 1 && !topics[0].ok) || brokers == [] }
  }

  // ----- what a response says ----------------------------------------------------------

  /** The leader of a partition in a list in which later entries replace earlier ones. */
  function LeaderIn(ps: seq<PartitionData>, p: int): Option<int> {
    if ps == [] then None
    else
      var last := ps[|ps| - 1];
      if last.partition == p then Some(last.leader) else LeaderIn(ps[..|ps| - 1], p)
  }

  /** A later entry for a topic replaces the whole of an earlier one. */
  function Leader(topics: seq<TopicData>, tp: TopicPartition): Option<int> {
    if topics == [] then None
    else
      var last := topics[|topics| - 1];
      if last.ok && last.topic == tp.topic then LeaderIn(last.partitions, tp.partition)
      else Leader(topics[..|topics| - 1], tp)
  }

  predicate ListedIn(ps: seq<PartitionData>, p: int, leader: int) {
    ps != [] && (ps[|ps| - 1] == PartitionData(p, leader) || ListedIn(ps[..|ps| - 1], p, leader))
  }

  /** Some entry of the response names this leader. */
  predicate Listed(topics: seq<TopicData>, tp: TopicPartition, leader: int) {
    if topics == [] then false
    else
      var last := topics[|topics| - 1];
      || (last.ok && last.topic == tp.topic && ListedIn(last.partitions, tp.partition, leader))
      || Listed(topics[..|topics| - 1], tp, leader)
  }

  /** Entry k of topic i counts: the topic has no error. */
  predicate Entry(topics: seq<TopicData>, i: nat, k: nat) {
    i < |topics| && topics[i].ok && k < |topics[i].partitions|
  }

  function NameOf(topics: seq<TopicData>, i: nat, k: nat): TopicPartition
    requires Entry(topics, i, k)
  {
    TopicPartition(topics[i].topic, topics[i].partitions[k].partition)
  }

  /** No later list of the topic replaces the list, and no later entry of the list replaces the entry. */
  ghost predicate Standing(topics: seq<TopicData>, i: nat, k: nat)
    requires Entry(topics, i, k)
  {
    var ps := topics[i].partitions;
    && (forall j :: i < j < |topics| && topics[j].ok ==> topics[j].topic != topics[i].topic)
    && (forall m :: k < m < |ps| ==> ps[m].partition != ps[k].partition)
  }

  /** A standing entry says the same as entry k of topic i. */
  ghost predicate Upheld(topics: seq<TopicData>, i: nat, k: nat)
    requires Entry(topics, i, k)
  {
    exists j: nat, m: nat ::
      Entry(topics, j, m) && Standing(topics, j, m) && NameOf(topics, j, m) == NameOf(topics, i, k)
      && topics[j].partitions[m].leader == topics[i].partitions[k].leader
  }

  /** Every entry that names a leader is upheld by the last list of its topic. */
  ghost predicate Undisputed(topics: seq<TopicData>) {
    forall i: nat, k: nat {:trigger Entry(topics, i, k)} ::
      Entry(topics, i, k) && topics[i].partitions[k].leader != -1 ==> Upheld(topics, i, k)
  }

  // ----- the code ----------------------------------------------------------------------

  type Index = map<int, set<TopicPartition>>

  function Led(index: Index, n: int): set<TopicPartition> {
    if n in index then index[n] else {}
  }

  function Of(leaders: map<int, int>, p: int): Option<int> {
    if p in leaders then Some(leaders[p]) else None
  }

  function LookUp(partitions: map<string, map<int, int>>, tp: TopicPartition): Option<int> {
    if tp.topic !in partitions then None else Of(partitions[tp.topic], tp.partition)
  }

  /** The index with the entries of one topic added. */
  ghost predicate Extends(index0: Index, index: Index, topic: string, ps: seq<PartitionData>) {
    forall n: int {:trigger ExtendsAt(index0, index, topic, ps, n)} :: ExtendsAt(index0, index, topic, ps, n)
  }

  ghost predicate ExtendsAt(index0: Index, index: Index, topic: string, ps: seq<PartitionData>, n: int) {
    forall tp: TopicPartition :: tp in Led(index, n) <==>
      (tp in Led(index0, n) || (n != -1 && tp.topic == topic && ListedIn(ps, tp.partition, n)))
  }

  lemma AddOne(index: Index, leader: int, added: TopicPartition, n: int, tp: TopicPartition)
    ensures tp in Led(index[leader := Led(index, leader) + {added}], n) <==>
            tp in Led(index, n) || (n == leader && tp == added)
  {
  }

  lemma ExtendsMore(index0: Index, before: Index, index: Index, topic: string, ps: seq<PartitionData>)
    requires ps != [] && Extends(index0, before, topic, ps[..|ps| - 1])
    requires var data := ps[|ps| - 1];
             index == if data.leader == -1 then before
                      else before[data.leader := Led(before, data.leader) + {TopicPartition(topic, data.partition)}]
    ensures Extends(index0, index, topic, ps)
  {
    var data := ps[|ps| - 1];
    forall n: int ensures ExtendsAt(index0, index, topic, ps, n) {
      assert ExtendsAt(index0, before, topic, ps[..|ps| - 1], n);
      forall tp: TopicPartition
        ensures tp in Led(index, n) <==>
                (tp in Led(index0, n) || (n != -1 && tp.topic == topic && ListedIn(ps, tp.partition, n)))
      {
        AddOne(before, data.leader, TopicPartition(topic, data.partition), n, tp);
      }
    }
  }

  /** Each broker's entry is what the topics list for it. */
  ghost predicate Indexes(index: Index, topics: seq<TopicData>) {
    forall n: int {:trigger IndexesAt(index, topics, n)} :: IndexesAt(index, topics, n)
  }

  ghost predicate IndexesAt(index: Index, topics: seq<TopicData>, n: int) {
    forall tp: TopicPartition :: tp in Led(index, n) <==> n != -1 && Listed(topics, tp, n)
  }

  lemma IndexesMore(before: Index, index: Index, topics: seq<TopicData>)
    requires topics != [] && Indexes(before, topics[..|topics| - 1]) && topics[|topics| - 1].ok
    requires Extends(before, index, topics[|topics| - 1].topic, topics[|topics| - 1].partitions)
    ensures Indexes(index, topics)
  {
    var last := topics[|topics| - 1];
    forall n: int ensures IndexesAt(index, topics, n) {
      assert IndexesAt(before, topics[..|topics| - 1], n) && ExtendsAt(before, index, last.topic, last.partitions, n);
    }
  }

  lemma IndexesSkip(index: Index, topics: seq<TopicData>)
    requires topics != [] && Indexes(index, topics[..|topics| - 1]) && !topics[|topics| - 1].ok
    ensures Indexes(index, topics)
  {
    forall n: int ensures IndexesAt(index, topics, n) { assert IndexesAt(index, topics[..|topics| - 1], n); }
  }

  class ClusterMetadata {
    var partitions: map<string, map<int, int>>
    var brokerPartitions: Index

    constructor ()
      ensures partitions == map[] && brokerPartitions == map[]
    {
      partitions, brokerPartitions := map[], map[];
    }

    function LeaderForPartition(tp: TopicPartition): Option<int>
      reads this
    {
      LookUp(partitions, tp)
    }

    function PartitionsForBroker(n: int): Option<set<TopicPartition>>
      reads this
    {
      if n in brokerPartitions then Some(brokerPartitions[n]) else None
    }

    /** The entries of one topic. */
    method ReadPartitions(topic: string, ps: seq<PartitionData>, index0: Index)
      returns (leaders: map<int, int>, index: Index)
      ensures forall p :: Of(leaders, p) == LeaderIn(ps, p)
      ensures Extends(index0, index, topic, ps)
    {
      leaders, index := map[], index0;
      for k := 0 to |ps|
        invariant forall p :: Of(leaders, p) == LeaderIn(ps[..k], p)
        invariant Extends(index0, index, topic, ps[..k])
      {
        assert ps[..k + 1][..k] == ps[..k];
        ghost var before := index;
        var data := ps[k];
        leaders := leaders[data.partition := data.leader];
        if data.leader != -1 {
          index := index[data.leader := Led(index, data.leader) + {TopicPartition(topic, data.partition)}];
        }
        ExtendsMore(index0, before, index, topic, ps[..k + 1]);
      }
      assert ps[..|ps|] == ps;
    }

    /** update_metadata: both indexes are those of the response, unless it is ignored. */
    method UpdateMetadata(r: MetadataResponse) returns (updated: bool)
      modifies this
      ensures updated <==> !r.Ignored()
      ensures !updated ==> partitions == old(partitions) && brokerPartitions == old(brokerPartitions)
      ensures updated ==> forall tp :: LookUp(partitions, tp) == Leader(r.topics, tp)
      ensures updated ==> Indexes(brokerPartitions, r.topics)
    {
      if r.Ignored() { return false; }
      var newPartitions: map<string, map<int, int>> := map[];
      var index: Index := map[];
      for k := 0 to |r.topics|
        invariant forall tp :: LookUp(newPartitions, tp) == Leader(r.topics[..k], tp)
        invariant Indexes(index, r.topics[..k])
      {
        assert r.topics[..k + 1][..k] == r.topics[..k];
        var data := r.topics[k];
        if !data.ok {
          IndexesSkip(index, r.topics[..k + 1]);
        } else {
          var leaders;
          ghost var index1 := index;
          leaders, index := ReadPartitions(data.topic, data.partitions, index);
          newPartitions := newPartitions[data.topic := leaders];
          IndexesMore(index1, index, r.topics[..k + 1]);
        }
      }
      assert r.topics[..|r.topics|] == r.topics;
      partitions, brokerPartitions := newPartitions, index;
      return true;
    }
  }

  // ----- agreement ---------------------------------------------------------------------

  lemma {:induction false} LastStands(ps: seq<PartitionData>, k: nat)
    requires k < |ps| && forall m :: k < m < |ps| ==> ps[m].partition != ps[k].partition
    ensures LeaderIn(ps, ps[k].partition) == Some(ps[k].leader)
  {
    if k < |ps| - 1 { LastStands(ps[..|ps| - 1], k); }
  }

  lemma {:induction false} StandingIsLeader(topics: seq<TopicData>, i: nat, k: nat)
    requires Entry(topics, i, k) && Standing(topics, i, k)
    ensures Leader(topics, NameOf(topics, i, k)) == Some(topics[i].partitions[k].leader)
  {
    var n := |topics| - 1;
    if i == n {
      LastStands(topics[i].partitions, k);
    } else {
      assert Entry(topics[..n], i, k) && NameOf(topics[..n], i, k) == NameOf(topics, i, k);
      StandingIsLeader(topics[..n], i, k);
    }
  }

  lemma {:induction false} LeaderInStands(ps: seq<PartitionData>, p: int) returns (k: nat)
    requires LeaderIn(ps, p).Some?
    ensures k < |ps| && ps[k] == PartitionData(p, LeaderIn(ps, p).value)
    ensures forall m :: k < m < |ps| ==> ps[m].partition != p
  {
    k := |ps| - 1;
    if ps[k].partition != p { k := LeaderInStands(ps[..k], p); }
  }

  lemma {:induction false} LeaderStands(topics: seq<TopicData>, tp: TopicPartition) returns (i: nat, k: nat)
    requires Leader(topics, tp).Some?
    ensures Entry(topics, i, k) && Standing(topics, i, k)
    ensures NameOf(topics, i, k) == tp && topics[i].partitions[k].leader == Leader(topics, tp).value
  {
    i := |topics| - 1;
    if topics[i].ok && topics[i].topic == tp.topic {
      k := LeaderInStands(topics[i].partitions, tp.partition);
    } else {
      i, k := LeaderStands(topics[..i], tp);
    }
  }

  lemma {:induction false} EntryIsListedIn(ps: seq<PartitionData>, k: nat)
    requires k < |ps|
    ensures ListedIn(ps, ps[k].partition, ps[k].leader)
  {
    if k < |ps| - 1 { EntryIsListedIn(ps[..|ps| - 1], k); }
  }

  lemma {:induction false} EntryIsListed(topics: seq<TopicData>, i: nat, k: nat)
    requires Entry(topics, i, k)
    ensures Listed(topics, NameOf(topics, i, k), topics[i].partitions[k].leader)
  {
    var n := |topics| - 1;
    if i == n {
      EntryIsListedIn(topics[i].partitions, k);
    } else {
      assert Entry(topics[..n], i, k);
      EntryIsListed(topics[..n], i, k);
    }
  }

  lemma {:induction false} WhereListedIn(ps: seq<PartitionData>, p: int, leader: int) returns (k: nat)
    requires ListedIn(ps, p, leader)
    ensures k < |ps| && ps[k] == PartitionData(p, leader)
  {
    k := |ps| - 1;
    if ps[k] != PartitionData(p, leader) { k := WhereListedIn(ps[..k], p, leader); }
  }

  lemma {:induction false} WhereListed(topics: seq<TopicData>, tp: TopicPartition, leader: int) returns (i: nat, k: nat)
    requires Listed(topics, tp, leader)
    ensures Entry(topics, i, k) && NameOf(topics, i, k) == tp && topics[i].partitions[k].leader == leader
  {
    i := |topics| - 1;
    if topics[i].ok && topics[i].topic == tp.topic && ListedIn(topics[i].partitions, tp.partition, leader) {
      k := WhereListedIn(topics[i].partitions, tp.partition, leader);
    } else {
      i, k := WhereListed(topics[..i], tp, leader);
    }
  }

  /** Broker n is listed for the partition exactly if it leads it. */
  ghost predicate AgreesAt(topics: seq<TopicData>, n: int, tp: TopicPartition) {
    n != -1 ==> (Listed(topics, tp, n) <==> Leader(topics, tp) == Some(n))
  }

  /** A broker's entry lists exactly the partitions it leads. */
  ghost predicate Agreeing(topics: seq<TopicData>) {
    forall n: int, tp: TopicPartition {:trigger AgreesAt(topics, n, tp)} :: AgreesAt(topics, n, tp)
  }

  lemma UpheldAgrees(topics: seq<TopicData>, n: int, tp: TopicPartition)
    requires Undisputed(topics)
    ensures AgreesAt(topics, n, tp)
  {
    if n != -1 && Listed(topics, tp, n) {
      var i, k := WhereListed(topics, tp, n);
      assert Upheld(topics, i, k);
      var j: nat, m: nat :| Entry(topics, j, m) && Standing(topics, j, m)
        && NameOf(topics, j, m) == NameOf(topics, i, k)
        && topics[j].partitions[m].leader == topics[i].partitions[k].leader;
      StandingIsLeader(topics, j, m);
    } else if n != -1 && Leader(topics, tp) == Some(n) {
      var i, k := LeaderStands(topics, tp);
      EntryIsListed(topics, i, k);
    }
  }

  /**
   * The broker index agrees with the leaders, for every broker and partition, exactly if every
   * entry of the response that names a leader is upheld by the last list of its topic.
   */
  lemma IndexesAgree(topics: seq<TopicData>)
    ensures Agreeing(topics) <==> Undisputed(topics)
  {
    if Undisputed(topics) {
      forall n: int, tp: TopicPartition ensures AgreesAt(topics, n, tp) { UpheldAgrees(topics, n, tp); }
    }
    if Agreeing(topics) {
      forall i: nat, k: nat | Entry(topics, i, k) && topics[i].partitions[k].leader != -1 ensures Upheld(topics, i, k) {
        EntryIsListed(topics, i, k);
        assert AgreesAt(topics, topics[i].partitions[k].leader, NameOf(topics, i, k));
        var j, m := LeaderStands(topics, NameOf(topics, i, k));
      }
    }
  }

  /** The two lookups agree on a broker and a partition. */
  ghost predicate SameAnswer(c: ClusterMetadata, n: int, tp: TopicPartition)
    reads c
  {
    c.PartitionsForBroker(n).Some? && tp in c.PartitionsForBroker(n).value <==>
      c.LeaderForPartition(tp) == Some(n) && n != -1
  }

  ghost predicate SameAnswers(c: ClusterMetadata)
    reads c
  {
    forall n: int, tp: TopicPartition {:trigger SameAnswer(c, n, tp)} :: SameAnswer(c, n, tp)
  }

  /** After an update the two lookups agree on every broker and partition exactly if the response is undisputed. */
  lemma LookupsAgree(c: ClusterMetadata, topics: seq<TopicData>)
    requires (forall t :: LookUp(c.partitions, t) == Leader(topics, t)) && Indexes(c.brokerPartitions, topics)
    ensures Undisputed(topics) <==> SameAnswers(c)
  {
    IndexesAgree(topics);
    forall n: int, tp: TopicPartition ensures AgreesAt(topics, n, tp) <==> SameAnswer(c, n, tp) {
      assert IndexesAt(c.brokerPartitions, topics, n);
      assert c.LeaderForPartition(tp) == LookUp(c.partitions, tp) == Leader(topics, tp);
      assert tp in Led(c.brokerPartitions, n) <==>
        c.PartitionsForBroker(n).Some? && tp in c.PartitionsForBroker(n).value;
    }
  }

  ghost predicate DistinctTopics(topics: seq<TopicData>) {
    && (forall i, j :: 0 <= i < j < |topics| ==> topics[i].topic != topics[j].topic)
    && (forall i :: 0 <= i < |topics| ==> DistinctPartitions(topics[i].partitions))
  }

  ghost predicate DistinctPartitions(ps: seq<PartitionData>) {
    forall i, j :: 0 <= i < j < |ps| ==> ps[i].partition != ps[j].partition
  }

  /** In a response with distinct topics and partitions every entry stands. */
  lemma DistinctIsUndisputed(topics: seq<TopicData>)
    requires DistinctTopics(topics)
    ensures Undisputed(topics)
  {
    forall i: nat, k: nat | Entry(topics, i, k) ensures Upheld(topics, i, k) {
      assert DistinctPartitions(topics[i].partitions);
      assert Standing(topics, i, k);
    }
  }

  /** What the sender relies on: the cluster it sees through these indexes is indexed. */
  lemma ResponseIsIndexed(topics: seq<TopicData>, cluster: SenderThread.Cluster)
    requires Undisputed(topics) && (forall tp :: cluster.leaderFor(tp) == Leader(topics, tp))
    requires forall n :: Distinct(cluster.partitionsFor(n)) && forall tp :: tp in cluster.partitionsFor(n) <==>
             n != -1 && Listed(topics, tp, n)
    ensures cluster.Indexed()
  {
    forall n, tp ensures tp in cluster.partitionsFor(n) <==> cluster.leaderFor(tp) == Some(n) && n != -1 {
      UpheldAgrees(topics, n, tp);
    }
  }

  /** A partition listed twice with two leaders stays in the index of the first. */
  lemma RepeatedPartitionDisagrees()
    ensures var topics := [TopicData(true, "t", [PartitionData(0, 1), PartitionData(0, 2)])];
            !Undisputed(topics) && Listed(topics, TopicPartition("t", 0), 1)
              && Leader(topics, TopicPartition("t", 0)) == Some(2)
  {
    var ps := [PartitionData(0, 1), PartitionData(0, 2)];
    var topics := [TopicData(true, "t", ps)];
    assert Entry(topics, 0, 0);
    EntryIsListed(topics, 0, 0);
    assert AgreesAt(topics, 1, TopicPartition("t", 0)) ==> Leader(topics, TopicPartition("t", 0)) == Some(1);
    IndexesAgree(topics);
  }

  /** A topic listed twice whose second list drops a partition leaves it in the index of its leader. */
  lemma DroppedPartitionDisagrees()
    ensures var topics := [TopicData(true, "t", [PartitionData(0, 1)]), TopicData(true, "t", [])];
            !Undisputed(topics) && Listed(topics, TopicPartition("t", 0), 1)
              && Leader(topics, TopicPartition("t", 0)).None?
  {
    var topics := [TopicData(true, "t", [PartitionData(0, 1)]), TopicData(true, "t", [])];
    assert Entry(topics, 0, 0);
    EntryIsListed(topics, 0, 0);
    assert AgreesAt(topics, 1, TopicPartition("t", 0)) ==> Leader(topics, TopicPartition("t", 0)) == Some(1);
    IndexesAgree(topics);
  }
}
