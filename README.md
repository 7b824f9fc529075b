# Query planner of the tsdb package, modelled in Dafny

This project models the planning half of the time-series query engine in
`tsdb/query_engine.go`. The model covers:

- the `Mapper` contract;
- its local stub realization `ShardMapper`;
- the `Executor` that holds a plan's mappers;
- `Planner.Plan`, which turns a SELECT statement into an executor with one
  mapper per distinct shard.

The model proves properties of each.

`Plan` runs two loops:

1. **The source loop.** For each source of the statement, in order:
   - reject a source that is not a measurement;
   - substitute the current instant for "now()" in the condition, writing
     the result back into the statement;
   - take the condition's time range, and fill a zero upper bound with the
     current instant and a zero lower bound with the Unix epoch;
   - ask the metadata store for the shard groups covering that range in
     the measurement's database and retention policy;
   - add every shard of every group to a map keyed by shard ID.
2. **The mapper loop.** For each shard in the map, in whatever order the
   map yields:
   - a shard owned by this node gets a new local `ShardMapper`;
   - any other shard gets the mapper the cluster builds for its ID.

Any error ends planning at once. The error is returned and no executor is
built.

Files and modules:

- `wrappers.dfy` (`Wrappers`): `Option` and `Result`.
- `influx.dfy` (`Influx`): the values taken from the query language and
  metadata packages:
  - time as nanoseconds from the Unix epoch, with Go's zero time;
  - sources, errors, shards and shard groups;
  - the statement, as a class whose condition is updated in place;
  - `Externals`, which bundles the foreign helpers the planner calls:
    condition reduction, time-range extraction and shard ownership.
- `mappers.dfy` (`Mappers`): the `Mapper` interface, the `ShardMapper`
  stub, the interface's interval promise, and `Executor`.
- `collaborators.dfy` (`Collaborators`): the metadata store and the
  cluster. Each is a class that answers from a fixed response function and
  keeps a ghost log of the calls made to it.
- `plan_spec.dfy` (`PlanSpec`): `Plan` stated as functions:
  - `DefaultRange`, the time-range defaulting rule;
  - `AddShards` and `AddGroups`, the keyed shard set;
  - `Gather`, the whole source loop, including its early exits, the
    reduced condition it leaves behind and the catalog queries it makes;
  - `RemoteOnly` and `RemoteIDs`, the local/remote split.

  It also holds the lemmas about these functions.
- `query_engine.dfy` (`QueryEngine`): the `Planner` class. `Plan` is split
  into its two loops, `CollectShards` and `BuildMappers`, and each loop body
  into a method of its own (`CollectSource` with `InsertGroups`, and
  `MapperFor`). `CollectShards`, `CollectSource` and `InsertGroups` are
  proved against the functions of `PlanSpec`. `MapperFor` is proved against
  the cluster's response function and the ownership test.

## Model

| member | source | states |
|---|---|---|
| `QueryEngine.Planner.Plan` | tsdb/query_engine.go:50-99 | Returns no executor exactly when it returns an error. The statement's condition and the catalog queries are those of `Gather`. A source-loop error is returned as is, with no cluster call. Otherwise the shard set is visited once per distinct ID. On success the executor is fresh and holds one mapper per distinct shard ID of all answered groups, each fitting its shard. The cluster was asked once for each non-owned shard and for nothing else. A cluster failure returns that call's error as the last call made, with every earlier call having succeeded. |
| `QueryEngine.Planner.CollectShards` | tsdb/query_engine.go:51-80 | The source loop leaves the statement's condition, the catalog query log, the shard set and the error exactly as `Gather` describes. |
| `QueryEngine.Planner.CollectSource` | tsdb/query_engine.go:54-79 | One iteration of the source loop is one `Step` of the functional model. A non-measurement source is rejected. Otherwise the condition is reduced and written back, and the catalog is asked once, with the measurement's database and retention policy and the defaulted range. A catalog error is returned as is; an answer's shards are added by ID. |
| `QueryEngine.InsertGroups` | tsdb/query_engine.go:75-79 | The two shard loops leave exactly `AddGroups` of the shard set and the answered groups. |
| `QueryEngine.Planner.MapperFor` | tsdb/query_engine.go:86-94 | A shard this node owns gets a fresh local mapper, and the cluster is not called. Any other shard gets exactly the cluster's answer for its ID, from exactly one logged call. |
| `QueryEngine.Planner.BuildMappers` | tsdb/query_engine.go:82-96 | Visits each shard ID at most once. The cluster calls are exactly the non-owned shards in visiting order. On success every shard was visited, and each got a fresh local mapper if owned, or otherwise the cluster's mapper for its ID. On failure the last visited shard is non-owned and its cluster call failed with the returned error, and every earlier call succeeded. |
| `PlanSpec.DefaultRange` | tsdb/query_engine.go:61-67 | A zero upper bound becomes now and a zero lower bound becomes the Unix epoch. Non-zero bounds are kept. The lower bound is never zero afterwards. |
| `PlanSpec.DefaultRangeIdempotent` | tsdb/query_engine.go:62-67 | Defaulting twice is the same as defaulting once, as long as now is not the zero time. |
| `PlanSpec.AddShardsSpec` | tsdb/query_engine.go:76-78 | Inserting shards by ID adds exactly their IDs to the keys and leaves other entries alone. Each added key holds one of the inserted shards with that ID. |
| `PlanSpec.AddGroupsSpec` | tsdb/query_engine.go:75-79 | Inserting every shard of every group adds exactly the groups' shard IDs. Other entries are unchanged. |
| `PlanSpec.AddGroupsFrom` | tsdb/query_engine.go:75-79 | Each key the groups add holds a shard of some group, filed under that shard's own ID. |
| `PlanSpec.GatherSticky` | tsdb/query_engine.go:53-80 | Once the source loop has stopped on an error, later sources change nothing. |
| `PlanSpec.GatherOutcome` | tsdb/query_engine.go:53-74 | The source loop ends in exactly one of three ways. (1) Every source is processed and every catalog query answered. (2) It stops at the first non-measurement source with an invalid-source-type error for it, and makes no query for it. (3) It stops at the first failed catalog query, with that query's own error. |
| `PlanSpec.GatherQueries` | tsdb/query_engine.go:59-71 | The i-th catalog query belongs to the i-th source, which is a measurement. It carries that measurement's database and retention policy and the defaulted range of the condition after i+1 reductions. The statement ends with the condition reduced once per query. |
| `PlanSpec.NonMeasurementRejected` | tsdb/query_engine.go:53-57 | A statement with a non-measurement source never plans successfully. No catalog query is made for that source or any later one. |
| `PlanSpec.GatherKeyed` | tsdb/query_engine.go:69-79 | Every entry of the shard set sits under its own shard's ID, and is a shard of a group the catalog returned for one of the queries made. |
| `PlanSpec.GatherCovers` | tsdb/query_engine.go:69-79 | The shard set's keys are exactly the union of the shard IDs of all groups the catalog answered with. Each ID appears once, even when sources or groups overlap. |
| `PlanSpec.LocalNeverRemote` | tsdb/query_engine.go:85-87 | A shard owned by this node is never passed to the cluster. |
| `PlanSpec.RemoteOnlySelects` | tsdb/query_engine.go:85-94 | For a duplicate-free visiting order, the shards passed to the cluster are duplicate-free and are exactly the visited shards that this node does not own. |
| `PlanSpec.RemoteOnlyExact` | tsdb/query_engine.go:84-96 | When every shard is visited once, the cluster is asked exactly once for each shard this node does not own, and for nothing else. |
| `Mappers.ShardMapper.Open` | tsdb/query_engine.go:122-124 | The local mapper's Open always succeeds. |
| `Mappers.ShardMapper.Begin` | tsdb/query_engine.go:129-131 | The local mapper's Begin always succeeds, whatever the statement and chunk size. |
| `Mappers.ShardMapper.NextChunk` | tsdb/query_engine.go:133-135 | Every chunk of the local mapper has an empty tag set, a nil result, the fixed interval 0 and no error. |
| `Mappers.ShardMapperIntervals` | tsdb/query_engine.go:24-27 | Any run of local-mapper intervals meets the interface's promise that intervals never decrease. |
| `Mappers.PullIntervals` | tsdb/query_engine.go:24-27 | Pulling n chunks from a local mapper yields n intervals, and they never decrease. |
| `Mappers.ShardMapper.Close` | tsdb/query_engine.go:126-127 | Closing the local mapper changes nothing. |
| `Collaborators.MetaStore.NodeID` | tsdb/query_engine.go:33 | The store's node ID is a constant of the store. |
| `Mappers.Executor.constructor` | tsdb/query_engine.go:105-109 | NewExecutor stores the mapper list unchanged. |
| `Collaborators.MetaStore.ShardGroupsByTimeRange` | tsdb/query_engine.go:32 | The catalog answers from its response function and logs the query's database, policy and bounds. |
| `Collaborators.Cluster.NewMapper` | tsdb/query_engine.go:37 | The cluster answers from its response function and logs the shard ID asked for. |

## Where the code departs from what one might expect

The model follows the code in each case:

- **Source checking.** One might expect every source to be checked before
  any work is done. The code checks each source inside the loop, so catalog
  queries for earlier sources, and the rewriting of the statement's
  condition, have already happened when a later source is rejected.
  `GatherOutcome` and `GatherQueries` state this.
- **Time range order.** One might expect min ≤ max to hold for every time
  range. The code never checks it, and the model does not claim it.
- **Closing on failure.** One might expect an aborted plan to release what
  it built. The mappers built before a cluster failure are neither returned
  nor closed. The model makes no claim about closing them.
- **Mapper contract.** One might expect a mapper to be a state machine whose
  Begin checks the predicate against the shard. The local mapper's methods
  are constant stubs with no state.

## Left out

- `Executor.Execute` (tsdb/query_engine.go:112-117): it returns an
  unbuffered channel that nothing feeds. There is no merge, ordering,
  cancellation or close-on-error behaviour in the code to model.
- `NewPlanner` and the planner's `Logger` (tsdb/query_engine.go:40-47):
  they only set up logging to standard error. The model's `Planner`
  constructor takes the metadata store and the cluster directly.
- influxql.Reduce, NowValuer and TimeRange, and meta.ShardInfo.OwnedBy:
  these are foreign code. They are function values in `Externals` that the
  model knows nothing about. The condition AST and the rest of a shard's
  metadata are opaque types.
- The metadata store and the cluster answer from fixed functions of their
  arguments. A collaborator whose answer to the same question changes
  between calls is not modelled.
- The clock: every `time.Now()` read in one `Plan` call is the single
  instant `now`. The code reads the clock afresh for each source, and
  separately for the "now()" substitution and the upper-bound default. The
  UTC-versus-local location of a `time.Time` is not modelled: a time is an
  instant.
- Go map iteration order: the mapper loop picks the next shard
  nondeterministically. `Plan` exposes the visiting order as a ghost
  result, and its contract holds for every order.
- Remote mappers: the cluster's mappers are opaque handles (`Remote`).
  Their wire implementation and behaviour are not part of this model, and
  neither is the interface's `Close` for them.
- The `chunkSize` argument of `Plan` is accepted and unused, as in the
  code.
- Shard and node IDs are `uint64` in the code and `nat` here. The planner
  does no arithmetic on them, so widths do not matter.
