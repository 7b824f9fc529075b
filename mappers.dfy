/**
 * The Mapper contract, its local stub realization ShardMapper, and the
 * Executor that owns the mappers a plan produced.
 */
module Mappers {
  import opened Wrappers
  import opened Influx

  /** The untyped `result` of NextChunk (an interface{}); `Nil` is Go's nil. */
  datatype Payload = Nil | Data(repr: string)

  /**
   * The local mapper. It has no fields, and every method is a stub that
   * returns a constant.
   */
  class ShardMapper {

    constructor ()
    {
    }

    /** Open always succeeds. */
    method Open() returns (err: Option<Error>)
      ensures err.None?
    {
      err := None;
    }

    /** Close does nothing: the mapper has no state for it to change. */
    method Close()
      ensures unchanged(this)
    {
    }

    /** Begin accepts every statement and chunk size. */
    method Begin(stmt: SelectStatement, chunkSize: int) returns (err: Option<Error>)
      ensures err.None?
    {
      err := None;
    }

    /** Every chunk is the same: an empty tag set, no result, interval 0 and no error. */
    method NextChunk() returns (tagSet: string, result: Payload, interval: int, err: Option<Error>)
      ensures tagSet == [] && result.Nil? && err.None?
      ensures interval == StubInterval
    {
      tagSet, result, interval, err := "", Nil, 0, None;
    }
  }

  /** The interval every ShardMapper chunk carries. */
  const StubInterval: int := 0

  /**
   * The Mapper interface, closed over its two realizations: a local
   * ShardMapper, or a mapper the cluster built for a shard on another node
   * (an opaque handle; its wire implementation is not part of this model).
   */
  datatype Mapper =
    | Local(shardMapper: ShardMapper)
    | Remote(handle: nat)

  /**
   * What the Mapper interface asks of the intervals of successive NextChunk
   * calls: they never decrease.
   */
  ghost predicate IntervalsNonDecreasing(intervals: seq<int>)
  {
    forall i, j :: 0 <= i <= j < |intervals| ==> intervals[i] <= intervals[j]
  }

  /** Any run of ShardMapper.NextChunk calls meets the interface's interval promise. */
  lemma ShardMapperIntervals(intervals: seq<int>)
    requires forall k :: 0 <= k < |intervals| ==> intervals[k] == StubInterval
    ensures IntervalsNonDecreasing(intervals)
  {
  }

  /**
   * A caller that pulls `n` chunks from one ShardMapper, collecting their
   * intervals: the intervals it sees never decrease, as the Mapper
   * interface promises.
   */
  method PullIntervals(sm: ShardMapper, n: nat) returns (intervals: seq<int>)
    ensures |intervals| == n
    ensures IntervalsNonDecreasing(intervals)
  {
    intervals := [];
    while |intervals| < n
      invariant |intervals| <= n
      invariant forall k :: 0 <= k < |intervals| ==> intervals[k] == StubInterval
    {
      var tagSet, result, interval, err := sm.NextChunk();
      intervals := intervals + [interval];
    }
    ShardMapperIntervals(intervals);
  }

  /** The executor of a plan: it holds the mappers, one per shard. */
  class Executor {
    var mappers: seq<Mapper>

    /** NewExecutor: stores the mapper list as given. */
    constructor (mappers: seq<Mapper>)
      ensures this.mappers == mappers
    {
      this.mappers := mappers;
    }
  }
}
