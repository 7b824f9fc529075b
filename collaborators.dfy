/**
 * The planner's two collaborators. Each answers from a fixed response
 * function and keeps a ghost log of the calls made to it, so that the
 * planner's contract can say which calls it made and in what order.
 */
module Collaborators {
  import opened Wrappers
  import opened Influx
  import opened Mappers

  /** The arguments of one ShardGroupsByTimeRange call. */
  datatype CatalogQuery = CatalogQuery(database: string, policy: string, min: Time, max: Time)

  /** The metadata store: shard groups by time range, and the local node's ID. */
  class MetaStore {
    const catalog: CatalogQuery -> Result<seq<ShardGroupInfo>, Error>
    const nodeID: NodeId
    ghost var queries: seq<CatalogQuery>

    constructor (catalog: CatalogQuery -> Result<seq<ShardGroupInfo>, Error>, nodeID: NodeId)
      ensures this.catalog == catalog && this.nodeID == nodeID && queries == []
    {
      this.catalog := catalog;
      this.nodeID := nodeID;
      queries := [];
    }

    /** Answers from `catalog` and logs the query. */
    method ShardGroupsByTimeRange(database: string, policy: string, min: Time, max: Time)
      returns (r: Result<seq<ShardGroupInfo>, Error>)
      modifies this
      ensures queries == old(queries) + [CatalogQuery(database, policy, min, max)]
      ensures r == catalog(CatalogQuery(database, policy, min, max))
    {
      queries := queries + [CatalogQuery(database, policy, min, max)];
      r := catalog(CatalogQuery(database, policy, min, max));
    }

    /** The ID of the node this planner runs on: a constant of the store. */
    function NodeID(): (id: NodeId)
      ensures id == nodeID
    {
      nodeID
    }
  }

  /** The cluster: builds a mapper for a shard that another node owns. */
  class Cluster {
    const respond: ShardId -> Result<Mapper, Error>
    ghost var calls: seq<ShardId>

    constructor (respond: ShardId -> Result<Mapper, Error>)
      ensures this.respond == respond && calls == []
    {
      this.respond := respond;
      calls := [];
    }

    /** Answers from `respond` and logs the shard ID asked for. */
    method NewMapper(shardID: ShardId) returns (r: Result<Mapper, Error>)
      modifies this
      ensures calls == old(calls) + [shardID]
      ensures r == respond(shardID)
    {
      calls := calls + [shardID];
      r := respond(shardID);
    }
  }
}
