/**
 * The values the query engine takes from the query language (influxql) and
 * from the metadata package (meta). Their internals are not part of this
 * model: the condition AST is an opaque type, and the helpers that reduce it,
 * extract its time range and decide shard ownership are function values the
 * planner is given (see `Externals`).
 */
module Influx {

  /** time.Time, as nanoseconds relative to the Unix epoch. */
  type Time = int

  /** The zero time.Time (January 1, year 1, 00:00:00 UTC). */
  const ZeroTime: Time := -62135596800 * 1000000000

  /** time.Unix(0, 0). */
  const UnixEpoch: Time := 0

  /** time.Time.IsZero. */
  predicate IsZero(t: Time)
  {
    t == ZeroTime
  }

  /** A time range as returned by influxql.TimeRange; a zero bound means "unbounded". */
  datatype TimeRange = TimeRange(min: Time, max: Time)

  /** The condition expression of a SELECT statement (influxql.Expr). */
  type Expr

  /** A source of a SELECT statement: a measurement reference or any other kind of source. */
  datatype Source =
    | Measurement(database: string, retentionPolicy: string, name: string)
    | OtherSource(repr: string)

  /** Errors: the planner's own invalid-source error, or an error a collaborator reports. */
  datatype Error =
    | InvalidSourceType(src: Source)
    | Failed(reason: string)

  type ShardId = nat
  type NodeId = nat

  /** Whatever meta.ShardInfo holds besides its ID. */
  type ShardAttrs(==)

  /** meta.ShardInfo: a physical shard, identified by `id`. */
  datatype ShardInfo = ShardInfo(id: ShardId, attrs: ShardAttrs)

  /** meta.ShardGroupInfo: the shards that cover one time window. */
  datatype ShardGroupInfo = ShardGroupInfo(shards: seq<ShardInfo>)

  /**
   * The foreign helpers the planner calls: influxql.Reduce with a NowValuer
   * (the condition with "now()" replaced by the given instant),
   * influxql.TimeRange, and meta.ShardInfo.OwnedBy.
   */
  datatype Externals = Externals(
    reduce: (Expr, Time) -> Expr,
    timeRange: Expr -> TimeRange,
    ownedBy: (ShardInfo, NodeId) -> bool)

  /** influxql.SelectStatement, reduced to what the planner reads and writes. */
  class SelectStatement {
    const sources: seq<Source>
    var condition: Expr

    constructor (sources: seq<Source>, condition: Expr)
      ensures this.sources == sources && this.condition == condition
    {
      this.sources := sources;
      this.condition := condition;
    }
  }
}
