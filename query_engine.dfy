/**
 * The planner: turns a SELECT statement into an executor holding one mapper
 * per distinct shard the statement touches.
 */
module QueryEngine {
  import opened Wrappers
  import opened Influx
  import opened Mappers
  import opened Collaborators
  import opened PlanSpec

  /** The shard loops of the source loop: `shards[sh.ID] = sh` for every shard of every group, in order. */
  method InsertGroups(shards: map<ShardId, ShardInfo>, groups: seq<ShardGroupInfo>)
    returns (r: map<ShardId, ShardInfo>)
    ensures r == AddGroups(shards, groups)
  {
    r := shards;
    var j := 0;
    while j < |groups|
      invariant 0 <= j <= |groups|
      invariant r == AddGroups(shards, groups[..j])
    {
      var k := 0;
      while k < |groups[j].shards|
        invariant 0 <= k <= |groups[j].shards|
        invariant r == AddShards(AddGroups(shards, groups[..j]), groups[j].shards[..k])
      {
        var sh := groups[j].shards[k];
        r := r[sh.id := sh];
        assert groups[j].shards[..k + 1][..k] == groups[j].shards[..k];
        k := k + 1;
      }
      assert groups[j].shards[..k] == groups[j].shards;
      assert groups[..j + 1][..j] == groups[..j];
      j := j + 1;
    }
    assert groups[..j] == groups;
  }

  class Planner {
    const metaStore: MetaStore
    const cluster: Cluster

    constructor (metaStore: MetaStore, cluster: Cluster)
      ensures this.metaStore == metaStore && this.cluster == cluster
    {
      this.metaStore := metaStore;
      this.cluster := cluster;
    }

    /** The planning run's inputs besides the statement. */
    ghost function Env(now: Time, ext: Externals): PlanEnv
    {
      PlanEnv(now, ext, metaStore.catalog)
    }

    /**
     * One iteration of the source loop, from the state `prev` the earlier
     * sources left: rejects a non-measurement source; otherwise reduces the
     * statement's condition, defaults the time range, asks the catalog for
     * shard groups and adds their shards by ID. The new state is one `Step`.
     */
    method CollectSource(stmt: SelectStatement, src: Source, shards: map<ShardId, ShardInfo>, now: Time, ext: Externals,
                         ghost prev: Gathered, ghost queries0: seq<CatalogQuery>)
      returns (shards': map<ShardId, ShardInfo>, err: Option<Error>)
      requires prev.err.None? && prev.cond == stmt.condition && prev.shards == shards
      requires metaStore.queries == queries0 + prev.queries
      modifies stmt, metaStore
      ensures var next := Step(prev, src, Env(now, ext));
        && stmt.condition == next.cond
        && metaStore.queries == queries0 + next.queries
        && shards' == next.shards
        && err == next.err
    {
      shards' := shards;
      if !src.Measurement? {
        err := Some(InvalidSourceType(src));
        return;
      }

      stmt.condition := ext.reduce(stmt.condition, now);
      var tr := ext.timeRange(stmt.condition);
      var tmin, tmax := tr.min, tr.max;
      if IsZero(tmax) {
        tmax := now;
      }
      if IsZero(tmin) {
        tmin := UnixEpoch;
      }
      assert CatalogQuery(src.database, src.retentionPolicy, tmin, tmax) == QueryFor(src, stmt.condition, Env(now, ext));

      var res := metaStore.ShardGroupsByTimeRange(src.database, src.retentionPolicy, tmin, tmax);
      if res.Failure? {
        err := Some(res.error);
        return;
      }
      shards' := InsertGroups(shards, res.value);
      err := None;
    }

    /**
     * The source loop of Plan: checks each source, reduces the condition,
     * defaults the time range, asks the catalog for shard groups and adds
     * their shards to the set keyed by shard ID; it stops at the first error.
     */
    method CollectShards(stmt: SelectStatement, now: Time, ext: Externals)
      returns (shards: map<ShardId, ShardInfo>, err: Option<Error>)
      modifies stmt, metaStore
      ensures var g := Gather(stmt.sources, old(stmt.condition), Env(now, ext));
        && stmt.condition == g.cond
        && metaStore.queries == old(metaStore.queries) + g.queries
        && shards == g.shards
        && err == g.err
    {
      ghost var env := Env(now, ext);
      ghost var cond0 := stmt.condition;
      ghost var queries0 := metaStore.queries;
      shards := map[];
      err := None;
      var i := 0;
      while i < |stmt.sources|
        invariant 0 <= i <= |stmt.sources|
        invariant err.None?
        invariant var g := Gather(stmt.sources[..i], cond0, env);
          && g.err.None?
          && g.cond == stmt.condition
          && g.shards == shards
          && metaStore.queries == queries0 + g.queries
      {
        GatherSnoc(stmt.sources, i, cond0, env);
        shards, err := CollectSource(stmt, stmt.sources[i], shards, now, ext,
                                     Gather(stmt.sources[..i], cond0, env), queries0);
        if err.Some? {
          GatherSticky(stmt.sources, i + 1, cond0, env);
          return;
        }
        i := i + 1;
      }
      assert stmt.sources[..i] == stmt.sources;
    }

    /**
     * The body of the mapper loop: a new local ShardMapper if this node owns
     * the shard, otherwise whatever the cluster returns for its ID.
     */
    method MapperFor(sh: ShardInfo, ext: Externals) returns (r: Result<Mapper, Error>)
      modifies cluster
      ensures ext.ownedBy(sh, metaStore.nodeID) ==>
                && r.Success? && r.value.Local? && fresh(r.value.shardMapper)
                && cluster.calls == old(cluster.calls)
      ensures !ext.ownedBy(sh, metaStore.nodeID) ==>
                && r == cluster.respond(sh.id)
                && cluster.calls == old(cluster.calls) + [sh.id]
    {
      if ext.ownedBy(sh, metaStore.NodeID()) {
        var sm := new ShardMapper();
        r := Success(Local(sm));
      } else {
        r := cluster.NewMapper(sh.id);
      }
    }

    /**
     * The mapper loop of Plan: visits the shard set in some order; a shard
     * this node owns gets a new local ShardMapper, any other shard gets the
     * mapper the cluster builds for its ID, and the first cluster failure
     * ends the loop with that error.
     */
    method BuildMappers(shards: map<ShardId, ShardInfo>, ext: Externals)
      returns (mappers: seq<Mapper>, err: Option<Error>, ghost order: seq<ShardId>)
      requires KeyedByID(shards)
      modifies cluster
      ensures Distinct(order)
      ensures forall i :: 0 <= i < |order| ==> order[i] in shards
      ensures cluster.calls == old(cluster.calls) + RemoteOnly(order, shards, metaStore.nodeID, ext.ownedBy)
      ensures err.None? ==> Elems(order) == shards.Keys
      ensures err.None? ==> MappersFit(mappers, order, shards, metaStore.nodeID, ext.ownedBy, cluster.respond)
      ensures err.None? ==> forall i :: 0 <= i < |order| && ext.ownedBy(shards[order[i]], metaStore.nodeID) ==>
                i < |mappers| && mappers[i].Local? && fresh(mappers[i].shardMapper)
      ensures err.Some? ==> FailedAt(order, shards, metaStore.nodeID, ext.ownedBy, cluster.respond, err.value)
    {
      var node := metaStore.nodeID;
      var remaining := shards.Keys;
      mappers, err, order := [], None, [];
      while remaining != {}
        invariant remaining == shards.Keys - Elems(order)
        invariant Elems(order) <= shards.Keys
        invariant Distinct(order)
        invariant cluster.calls == old(cluster.calls) + RemoteOnly(order, shards, node, ext.ownedBy)
        invariant MappersFit(mappers, order, shards, node, ext.ownedBy, cluster.respond)
        invariant forall i :: 0 <= i < |order| && ext.ownedBy(shards[order[i]], node) ==>
                    i < |mappers| && mappers[i].Local? && fresh(mappers[i].shardMapper)
        decreases remaining
      {
        var id :| id in remaining;
        assert id !in order;
        RemoteOnlyAppend(order, id, shards, node, ext.ownedBy);
        var r := MapperFor(shards[id], ext);
        ghost var visited := order;
        order := order + [id];
        if r.Failure? {
          err := Some(r.error);
          assert order[..|order| - 1] == visited;
          MappersFitAllBuilt(mappers, visited, shards, node, ext.ownedBy, cluster.respond);
          return;
        }
        MappersFitAppend(mappers, visited, shards, node, ext.ownedBy, cluster.respond, r.value, id);
        mappers := mappers + [r.value];
        remaining := remaining - {id};
        assert Elems(order) == Elems(visited) + {id};
      }
      assert Elems(order) == shards.Keys by {
        forall x | x in shards.Keys
          ensures x in Elems(order)
        {
          assert x !in remaining;
        }
      }
    }

    /**
     * Plan: the source loop, then (if it succeeded) the mapper loop, then
     * an executor holding the mappers. Any error yields no executor.
     * `order` is the order in which the shard set was visited.
     */
    method Plan(stmt: SelectStatement, chunkSize: int, now: Time, ext: Externals)
      returns (exec: Executor?, err: Option<Error>, ghost order: seq<ShardId>)
      modifies stmt, metaStore, cluster
      ensures exec == null <==> err.Some?
      ensures var g := Gather(stmt.sources, old(stmt.condition), Env(now, ext));
        && stmt.condition == g.cond
        && metaStore.queries == old(metaStore.queries) + g.queries
        && (g.err.Some? ==> err == g.err && order == [] && cluster.calls == old(cluster.calls))
      ensures var g := Gather(stmt.sources, old(stmt.condition), Env(now, ext));
        g.err.None? ==>
          && Distinct(order)
          && (forall i :: 0 <= i < |order| ==> order[i] in g.shards)
          && cluster.calls == old(cluster.calls) + RemoteOnly(order, g.shards, metaStore.nodeID, ext.ownedBy)
          && (err.Some? ==> FailedAt(order, g.shards, metaStore.nodeID, ext.ownedBy, cluster.respond, err.value))
      ensures var g := Gather(stmt.sources, old(stmt.condition), Env(now, ext));
        exec != null ==>
          && fresh(exec)
          && Elems(order) == g.shards.Keys
          && Elems(order) == CoveredIDs(g.queries, metaStore.catalog)
          && MappersFit(exec.mappers, order, g.shards, metaStore.nodeID, ext.ownedBy, cluster.respond)
          && (forall i :: 0 <= i < |order| && ext.ownedBy(g.shards[order[i]], metaStore.nodeID) ==>
                i < |exec.mappers| && exec.mappers[i].Local? && fresh(exec.mappers[i].shardMapper))
      ensures var g := Gather(stmt.sources, old(stmt.condition), Env(now, ext));
        exec != null ==>
          var asked := cluster.calls[|old(cluster.calls)|..];
          && Distinct(asked)
          && Elems(asked) == RemoteIDs(g.shards, metaStore.nodeID, ext.ownedBy)
          && |asked| == |RemoteIDs(g.shards, metaStore.nodeID, ext.ownedBy)|
    {
      ghost var g := Gather(stmt.sources, stmt.condition, Env(now, ext));
      var shards;
      shards, err := CollectShards(stmt, now, ext);
      assert shards == g.shards && err == g.err;
      if err.Some? {
        return null, err, [];
      }
      GatherKeyed(stmt.sources, old(stmt.condition), Env(now, ext));
      GatherCovers(stmt.sources, old(stmt.condition), Env(now, ext));
      ghost var calls0 := cluster.calls;
      var mappers;
      mappers, err, order := BuildMappers(shards, ext);
      if err.Some? {
        return null, err, order;
      }
      RemoteOnlyExact(order, shards, metaStore.nodeID, ext.ownedBy);
      assert cluster.calls[|calls0|..] == RemoteOnly(order, shards, metaStore.nodeID, ext.ownedBy);
      exec := new Executor(mappers);
    }
  }
}
