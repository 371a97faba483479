/** Types shared by every part of the client. */
module Common {

  type byte = b: int | 0 <= b < 256

  datatype Option<+T> = None | Some(value: T)

  /** kafka.structs.TopicPartition */
  datatype TopicPartition = TopicPartition(topic: string, partition: int)

  /** What a Python call does: return a value, or raise. */
  datatype Outcome<+T, +E> = Returns(value: T) | Raises(error: E)

  /** The elements of a sequence are pairwise different. */
  ghost predicate Distinct<T(!new)>(xs: seq<T>) {
    forall i, j :: 0 <= i < j < |xs| ==> xs[i] != xs[j]
  }

  /** A sequence of numbers is strictly increasing. */
  ghost predicate Increasing(xs: seq<int>) {
    forall i, j :: 0 <= i < j < |xs| ==> xs[i] < xs[j]
  }

  /** Any element of a set, as an iteration over it delivers next. */
  method Next<T>(s: set<T>) returns (x: T)
    requires s != {}
    ensures x in s
  {
    x :| x in s;
  }
}
