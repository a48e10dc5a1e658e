# Verified model of the Knoa agent and its example servers

This project models, in Dafny, the parts of the repository whose behaviour is hardest to see from
one function at a time, and proves what they promise on every input, every run and every crash.
`dafny verify dfyconfig.toml` checks all of it.

- **The incremental OSM map updater.** `OsmObjects` (the object store), `DependencyScope` and
  `Invalidation` (which objects a change affects), `RouteGraph`, `RouteMeaning` and `FullBuild` (what a full
  build means), `MapMerge` and `MapDatabase` (merging a delta, counters, triggers), `TwoStoreUpdate` (the
  crash-safe protocol over both stores), `MapTransaction` (its merge step by the table statements),
  `Updater` (its control flow), `StaleExample` and `TagCodec`. The chain of
  results is: the scope covers every content change (`Invalidation.PrepareUpdate`), merging the rows
  of the scope equals a rebuild (`MapMerge.RouteMergeIsRebuild`, `MapMerge.RowMergeIsRebuild`), so
  over every interleaving with crashes the map is the derivation of its own sequence and every
  restart recovers (`TwoStoreUpdate.UpdaterTheorem`, `TwoStoreUpdate.Recovers`).
- **Routing.** `RouteSearch` (A* with stale heap entries and a closed set), `Polyline`
  (Douglas-Peucker) and `RouteSteps` (two grouping passes that agree).
- **The agent's turn.** `Conversation`, `AbortRepair`, `ContextEngine` (compaction under a token
  budget), `OpenCalls` (reading conversations), `TurnEvents` (a monitor of a turn's events) and
  `TurnLoop` (the bounded ReAct loop and its checkpoints).
- **At-most-once side effects.** `RetryActions` and `RetryClient` (GitLab retries),
  `CommentActions` (Jira comments) and `FailureEvents` (GitLab failure polling).

## Assumptions

- The delta builder writes exactly the derived rows of the scope it is given (less what it defers),
  where deriving is any function of an object's expanded content that gives one row of a kind (the
  tables' unique keys); replication diffs take the planet
  from one sequence to the other.
- A*: the distance is non-negative and satisfies the triangle inequality, and no edge is shorter than
  the distance of its ends. Arithmetic is over reals.
- Closed checkpoints, and finishes that carry the id of their start: screen verification is off and
  tools echo the ids of their calls (`TurnLoop.Session.Tidy`). Everything else about a turn holds
  without this.
- Different requests have different hashes, and checkpoint saving is a compare-and-set on the revision.

## Promises that turned out false, and when they hold

- The route-node counter drifts: `MapMerge.NodeCountDrift` gives the exact amount,
  `MapMerge.NodeCountExactIff` the exact condition, `MapMerge.NewRoadDrift` a whole family of inputs.
- A consolidating batch removes the deferred file even if the batch itself pruned relations:
  `TwoStoreUpdate.RecordedStep` says exactly when a stale relation loses its record,
  `Updater.UpdateProcess.UpdateLocked` says it of the code, and `TwoStoreUpdate.RecordCanBeLost`
  reaches the loss from every settled start.
- Abort repair does not close every conversation: it does exactly if at most one message is
  incomplete (`AbortRepair.RepairClosesIff`; `AbortRepair.TwoIncomplete` gives inputs). Even then it
  may put a response ahead of its call; calls and responses pair up both ways exactly if nobody calls
  a tool after an incomplete message (`AbortRepair.RepairPairsIff`; `AbortRepair.CompleteCallAfter`
  gives inputs). With verification off and ids echoed the turn loop only ever repairs such histories.
- The two histories of a turn are not always in step: they are exactly if the user's text does not
  read as a runtime context (`TurnLoop.Beginning`), and then stay so (`TurnLoop.Session.RunTurn`).
  `ContextEngine.TaggedTextLosesTurn` shows what compaction does otherwise. Checkpoints stay good in
  either case.
- Screen verification leaves a conversation closed exactly if only the last call of a reply draws a
  complaint (`OpenCalls.VerificationCloses`; `OpenCalls.ComplaintBetweenCalls` gives inputs).
- A recorded Jira success can be overwritten by another process, with an unknown outcome or with
  another comment's id: `CommentActions.SuccessCanBeLost`. `CommentActions.SuccessFinalIff` is the
  exact condition over all continuations, and `CommentActions.LockedSuccessIsFinal` shows that the
  per-key lock of one process ensures it.
- The union of both closures is more than soundness needs: either one alone would do
  (`Invalidation.ContentKept`).

## Model

| member | source | states |
|---|---|---|
| `OsmObjects.ObjectDatabase.ApplyDependencyChanges` | examples/osm_map_mcp_server/incremental_update.py:347-393 | the in-place deletes and inserts leave exactly the store in which changed objects take their new value or vanish and all others stay, and no membership row without its parent |
| `OsmObjects.AppliedCompose` | examples/osm_map_mcp_server/incremental_update.py:347-393 | two change sets in turn equal one in which the later value of an object wins |
| `OsmObjects.AppliedIs` | examples/osm_map_mcp_server/incremental_update.py:347-393 | after a change set every object is as the change says, in all tables, way nodes and members included, and the others are as before |
| `OsmObjects.AppliedIdempotent` | examples/osm_map_mcp_server/incremental_update.py:347-393 | replaying a change set already in the store changes nothing, so a repair may repeat one |
| `DependencyScope.ComputeScope` | examples/osm_map_mcp_server/incremental_update.py:301-344 | the result is exactly the objects reached from a direct change through way nodes and memberships, cycles included; it fails if and only if some object's shortest chain has at least 32 links |
| `DependencyScope.Rounds` | examples/osm_map_mcp_server/incremental_update.py:324-336 | the level loop stops at the first level that adds nothing, or at the cap while still growing |
| `DependencyScope.AffectedIsLeast` | examples/osm_map_mcp_server/incremental_update.py:301-344 | the affected objects are the least set that holds the base and is closed under membership |
| `DependencyScope.StableIsAffected` | examples/osm_map_mcp_server/incremental_update.py:324-336 | once one level adds nothing, the table is the whole closure, at any depth |
| `DependencyScope.CapReached` | examples/osm_map_mcp_server/incremental_update.py:324-336 | growth in the last level means that somebody's shortest chain has that many links |
| `DependencyScope.CapNotReached` | examples/osm_map_mcp_server/incremental_update.py:324-336 | if growth stops earlier, nobody's shortest chain is that long |
| `Invalidation.ContentKept` | examples/osm_map_mcp_server/incremental_update.py:301-344 | soundness: an object outside either closure (before the change, or after it) has the same recursively expanded content before and after, to any depth through cyclic relations |
| `Invalidation.WayContentIff` | examples/osm_map_mcp_server/incremental_update.py:301-344 | two ways expand alike if and only if both are missing, or have the same tags, node list and located nodes |
| `Invalidation.RelationContentIff` | examples/osm_map_mcp_server/incremental_update.py:301-344 | two relations expand alike to some depth if and only if both are missing, or have the same tags, member list and members that expand alike one level less |
| `Invalidation.AffectedIffMentions` | examples/osm_map_mcp_server/incremental_update.py:301-344 | precision: the closure holds exactly the objects whose expansion meets a directly changed object |
| `Invalidation.CoversUnion` | examples/osm_map_mcp_server/incremental_update.py:396-402 | the union of both closures covers every object whose content the change can alter |
| `Invalidation.PrepareUpdate` | examples/osm_map_mcp_server/incremental_update.py:404-426 | applies the change and returns exactly the union of the old and new closures, which covers every content change; it fails, and rolls the store back, if and only if one of the closures is too deep |
| `RouteGraph.MaskLaws` | examples/osm_map_mcp_server/build_index.py:306-343 | the stored masks: bitwise OR and AND are union and membership of modes, and a mask determines its modes |
| `RouteGraph.GraphUnique` | examples/osm_map_mcp_server/build_index.py:675-722 | the edge and node tables are determined by the store: the full-build meaning is unique |
| `RouteGraph.GraphExists` | examples/osm_map_mcp_server/build_index.py:675-722 | every object store has such tables |
| `RouteMeaning.EdgeIsLink` | examples/osm_map_mcp_server/build_index.py:675-722 | and every edge is such a pair |
| `RouteMeaning.LinkIsEdge` | examples/osm_map_mcp_server/build_index.py:675-722 | every such pair of nodes of a way has its edge, with the ends in way order, their distance, the way's forward and backward modes and its name |
| `RouteMeaning.DirectionsOfWays` | examples/osm_map_mcp_server/build_index.py:675-722 | one can travel from a to b by a mode if and only if some way leads there: its located nodes a and b follow each other, distinct and 0.1 m to 100 km apart, in way order with the forward modes or in reverse with the backward modes |
| `RouteMeaning.NodeServes` | examples/osm_map_mcp_server/build_index.py:522-548 | a node is there exactly if an edge ends at it, and has a mode exactly if one can leave or reach it by that mode |
| `FullBuild.RouteImport.Import` | examples/osm_map_mcp_server/build_index.py:594-727 | the tables are the fold of all upserts, whatever the batch size and however many feature rows come between; what the edges mean is RouteMeaning.DirectionsOfWays |
| `FullBuild.RouteImport.Way` | examples/osm_map_mcp_server/build_index.py:675-727 | emitting a way appends exactly its rows, wherever a flush falls, one by a full feature list included |
| `FullBuild.RouteImport.Flush` | examples/osm_map_mcp_server/build_index.py:486-548 | flushing moves the pending rows into the tables and nothing else |
| `FullBuild.FoldedNode` | examples/osm_map_mcp_server/build_index.py:522-528 | the OR-upsert gives a node exactly the modes that some row has, in any order |
| `FullBuild.ImportIsGraph` | examples/osm_map_mcp_server/build_index.py:486-727 | any order of ways and any batches: every node is an edge's end, has the OR of its edges' modes and its object's position, and the edges are exactly those of the ways |
| `FullBuild.ImportStore` | examples/osm_map_mcp_server/build_index.py:486-727 | a whole import ends with the graph of the store, for any batch size and order of ways |
| `MapMerge.MergeKeepsGraph` | examples/osm_map_mcp_server/incremental_update.py:936-983 | every merge keeps: a node is present exactly when an edge touches it, with the OR of its incident edges' modes |
| `MapMerge.RouteMergeIsRebuild` | examples/osm_map_mcp_server/incremental_update.py:906-983 | incremental equals rebuild: merging the graph rows of the ways in scope gives the graph of the new store |
| `MapMerge.MergedEdgesRebuilt` | examples/osm_map_mcp_server/incremental_update.py:906-935 | the merged edges equal those of a full derivation |
| `MapMerge.MergedNodesPlaced` | examples/osm_map_mcp_server/incremental_update.py:945-949 | after the merge every node lies where the new store puts it |
| `MapMerge.GraphOverRuns` | examples/osm_map_mcp_server/incremental_update.py:936-1037 | the graph invariant over every run of merges; the route-node counter's error never shrinks |
| `MapMerge.NodeCountDrift` | examples/osm_map_mcp_server/incremental_update.py:888-892 | one merge adds to the route-node counter's error exactly the number of already present nodes that only the delta touches |
| `MapMerge.NodeCountExactIff` | examples/osm_map_mcp_server/incremental_update.py:888-892 | the counter stays exact over a merge if and only if the delta touches no present node that the replaced edges did not |
| `MapMerge.NewRoadDrift` | examples/osm_map_mcp_server/incremental_update.py:936-944 | a family of failures: a new road at an existing junction counts the junction twice |
| `MapMerge.RowMergeIsRebuild` | examples/osm_map_mcp_server/incremental_update.py:894-927 | after the merge every object that is neither pruned nor left stale has exactly its rows of a full derivation |
| `MapMerge.PrunedRowsKept` | examples/osm_map_mcp_server/incremental_update.py:238-250 | a pruned relation keeps exactly the rows it had |
| `MapMerge.UpToDateUnique` | examples/osm_map_mcp_server/incremental_update.py:894-927 | being up to date fixes the rows of every object that is not stale |
| `MapDatabase.MirroredTable.Replace` | examples/osm_map_mcp_server/incremental_update.py:736-772 | delete and insert through the triggers: the row set is the merge, index rows still mirror base rows, keys stay unique, counters stay true |
| `MapDatabase.MirroredTable.MoveCounters` | examples/osm_map_mcp_server/incremental_update.py:1002-1027 | total and per-type counters are moved to the true row counts |
| `MapDatabase.RowCountsExact` | examples/osm_map_mcp_server/incremental_update.py:985-1027 | feature, per-type and area counters equal the true row counts after a merge |
| `MapDatabase.EdgeCountExact` | examples/osm_map_mcp_server/incremental_update.py:1028-1032 | the edge counter equals the number of edges after a merge |
| `MapDatabase.AggregateIsOr` | examples/osm_map_mcp_server/incremental_update.py:951-974 | the sum of masked maxima over a node's edge rows is the OR of its edges' modes, and a node has rows exactly if an edge touches it |
| `MapDatabase.StatementsMerge` | examples/osm_map_mcp_server/incremental_update.py:945-983 | upsert positions, update modes, delete loose nodes: together exactly the recomputed node table |
| `MapDatabase.RouteTables.Merge` | examples/osm_map_mcp_server/incremental_update.py:888-983 | the route statements compute the merged graph and keep the node index and the edge counter; the node counter moves as in the code |
| `MapDatabase.MapTables.MergeDelta` | examples/osm_map_mcp_server/incremental_update.py:823-1060 | one committed merge: rows of all tables, route graph, mirrors, counters and the new sequence |
| `MapTransaction.BuiltRowsInScope` | examples/osm_map_mcp_server/incremental_update.py:823-935 | what the builder writes for a scope are rows of that scope with distinct keys, so the merge may take them |
| `MapTransaction.MergeTransaction` | examples/osm_map_mcp_server/incremental_update.py:823-1060 | tables that hold a protocol state, with mirrors, keys and counters, hold the next state after the merge statements |
| `TwoStoreUpdate.InvStep` | examples/osm_map_mcp_server/incremental_update.py:1187-1425 | every commit, crash and store rebuild keeps the recoverable shape of (object sequence, map sequence, journal) and a derived map |
| `TwoStoreUpdate.MergeDerives` | examples/osm_map_mcp_server/incremental_update.py:1187-1249 | a merge at any point of any run leaves the map derived from the object store's sequence |
| `TwoStoreUpdate.RunsAreSafe` | examples/osm_map_mcp_server/incremental_update.py:1277-1334 | over every interleaving of commits and crashes none of the inconsistency exits can be taken |
| `TwoStoreUpdate.Recovers` | examples/osm_map_mcp_server/incremental_update.py:1277-1334 | from every reachable state, after a crash and whatever the builder defers, a restarted run ends with equal sequences, no journal and the map derived at the furthest committed sequence |
| `TwoStoreUpdate.EveryRestartSettles` | examples/osm_map_mcp_server/incremental_update.py:1277-1334 | every restarted run, whatever the builder defers and writes, is settled at the furthest committed sequence after a fixed number of steps and cannot go on for longer |
| `TwoStoreUpdate.SameSequenceSameMap` | examples/osm_map_mcp_server/incremental_update.py:1277-1334 | two runs at the same sequence, crashed or not, hold the same route graph and the same rows of every object that is not stale in either |
| `TwoStoreUpdate.RecordedStep` | examples/osm_map_mcp_server/incremental_update.py:1415-1416 | stale relations stay listed in the deferred file over a step if and only if the step is not the removal of the file by a consolidating batch that itself pruned a relation |
| `TwoStoreUpdate.RecordCanBeLost` | examples/osm_map_mcp_server/incremental_update.py:1374-1416 | the loss is reachable from every settled start: a relation pruned by one batch and again by the consolidating one ends unlisted and with its rows of the start |
| `StaleExample.MapStaysWrong` | examples/osm_map_mcp_server/incremental_update.py:1374-1416 | a planet on which that run leaves the map wrong: the relation's row differs from its derivation and nothing lists it |
| `TwoStoreUpdate.RecordedRuns` | examples/osm_map_mcp_server/incremental_update.py:253-275 | over every run without that step every stale relation is in the deferred file |
| `TwoStoreUpdate.UpdaterTheorem` | examples/osm_map_mcp_server/incremental_update.py:1252-1425 | from any start state and over every run: no inconsistency exit and a derived map; and, unless a consolidating batch that itself pruned removed the file, every stale relation is recorded in it |
| `Updater.UpdateProcess.UpdateLocked` | examples/osm_map_mcp_server/incremental_update.py:1252-1425 | the control flow itself: it dies if and only if its life is shorter than the commits that the state calls for, and otherwise takes exactly the exit that the state calls for: with a new batch due it runs it; no inconsistency exit, what it leaves is recoverable, a pending journal is always recovered; stale relations stay in the deferred file if and only if it does not end with a consolidating batch that pruned |
| `Updater.UpdateProcess.UpdateLevel` | examples/osm_map_mcp_server/incremental_update.py:1345-1425 | level stores: a new batch is run to the target exactly if there is one and no closure is too deep |
| `Updater.UpdateProcess.BuildAndMerge` | examples/osm_map_mcp_server/incremental_update.py:1187-1249 | the batch after staging: list, merge, clear; done exactly if it lives through its three commits; what is pruned is listed before it becomes stale |
| `Updater.UpdateProcess.RepairObjects` | examples/osm_map_mcp_server/incremental_update.py:568-612 | a store behind the map is brought level with it |
| `Updater.UpdateProcess.NewBatch` | examples/osm_map_mcp_server/incremental_update.py:1364-1425 | a fresh batch dies if and only if its life is shorter than its commits, in a recoverable state; else it ends level at the target, or takes the too-deep exit, before committing, if and only if a closure is too deep; it empties the deferred file exactly if it consolidates, else appends what was pruned |
| `Updater.UpdateProcess.StageBatch` | examples/osm_map_mcp_server/incremental_update.py:1364-1413 | scope, journal and object commit of a new batch, in this order; stops after any of them |
| `Updater.UpdateProcess.RecoverBatch` | examples/osm_map_mcp_server/incremental_update.py:1293-1322 | a store ahead of the map finishes the journal's batch exactly if it lives through three commits, else it dies in a recoverable state |
| `TagCodec.EncodeTags` | examples/osm_map_mcp_server/incremental_update.py:142-150 | encoding succeeds exactly if all lengths fit 32 bits, and concatenates the length-prefixed pairs |
| `TagCodec.TagLayout` | examples/osm_map_mcp_server/incremental_update.py:142-150 | the bytes of a pair: both lengths in four bytes, least significant first, then key and value |
| `TagCodec.DecodeTags` | examples/osm_map_mcp_server/incremental_update.py:153-168 | the offset loop gives the dictionary of the unique split, or exactly the error that the bytes call for |
| `TagCodec.ParseEncoded` | examples/osm_map_mcp_server/incremental_update.py:142-168 | every list of pairs decodes to itself |
| `TagCodec.EncodedParse` | examples/osm_map_mcp_server/incremental_update.py:142-168 | every accepted byte string is the encoding of what it decodes to |
| `TagCodec.AcceptedIffEncoding` | examples/osm_map_mcp_server/incremental_update.py:142-168 | the decoder accepts exactly the encodings and splits each in exactly one way |
| `TagCodec.DictionaryExact` | examples/osm_map_mcp_server/incremental_update.py:153-168 | with distinct keys no pair is lost or merged |
| `TagCodec.RoundTrip` | examples/osm_map_mcp_server/incremental_update.py:142-168 | encode then decode gives the same map for every tag list with distinct keys and 32-bit lengths |
| `RouteSearch.SpeedBounded` | examples/osm_map_mcp_server/map_service.py:2295-2313 | every edge speed is positive and at most the heuristic's top speed of its mode |
| `RouteSearch.PostedLimit` | examples/osm_map_mcp_server/map_service.py:2311-2313 | driving with a posted limit: duration times limit is 3.6 times the length, the limit clamped to 7.2 and 130 km/h |
| `RouteSearch.UnpostedLimit` | examples/osm_map_mcp_server/map_service.py:2302-2313 | driving without a posted limit: the speed of the road's class, 30 km/h for any other class |
| `RouteSearch.ClassOrder` | examples/osm_map_mcp_server/map_service.py:2302-2313 | of two unposted roads of one length the one of the higher class takes strictly less time |
| `RouteSearch.OwnPace` | examples/osm_map_mcp_server/map_service.py:2297-2301 | walking and cycling ignore posted limits and have their metres per second by class; steps are slowest |
| `RouteSearch.Consistent` | examples/osm_map_mcp_server/map_service.py:2364-2381 | the heuristic drops along an edge by at most the edge's duration |
| `RouteSearch.ConsistentPath` | examples/osm_map_mcp_server/map_service.py:2364-2381 | and along any path by at most its duration |
| `RouteSearch.HopsFromIff` | examples/osm_map_mcp_server/map_service.py:2334-2343 | the two-part query returns exactly the mode-permitted hops out of a node |
| `RouteSearch.PoppedIsMinimal` | examples/osm_map_mcp_server/map_service.py:2344-2350 | a popped entry that is not stale has the minimal duration over all paths to its node |
| `RouteSearch.AllReached` | examples/osm_map_mcp_server/map_service.py:2315-2397 | when the heap is empty every reachable node has been closed |
| `RouteSearch.Explore` | examples/osm_map_mcp_server/map_service.py:2344-2385 | the loop ends with the goal's minimal duration, or no path exists, or a limit was hit: then time was up or exactly one more than the limit of reachable nodes, none the goal, were expanded |
| `RouteSearch.Retrace` | examples/osm_map_mcp_server/map_service.py:2386-2397 | following predecessors gives a permitted path with the recorded duration and distance |
| `RouteSearch.FindRoute` | examples/osm_map_mcp_server/map_service.py:2315-2397 | a returned path is a chain of permitted edges of minimal duration over all paths, found within the expansion limit; not found means unreachable; limited means time was up or more reachable nodes than the limit were expanded; with a limit of at least the number of nodes and no timeout it decides |
| `Polyline.Farthest` | examples/osm_map_mcp_server/map_service.py:745-765 | the inner point farthest from the chord |
| `Polyline.DouglasPeucker` | examples/osm_map_mcp_server/map_service.py:745-765 | a subsequence that keeps both ends, every dropped point within tolerance of the chord of its kept neighbours, every kept inner point beyond tolerance and farthest in a stretch between two kept points; only the ends are kept if and only if every inner point is within tolerance of their chord |
| `Polyline.Simplify` | examples/osm_map_mcp_server/map_service.py:745-765 | the same without naming the kept positions, for any points, tolerance and non-negative distance |
| `RouteSteps.GroupsConserve` | examples/osm_map_mcp_server/map_service.py:2408-2440 | groups join end to start from the route's start to its end, and their distances sum to the route length |
| `RouteSteps.KeyIff` | examples/osm_map_mcp_server/map_service.py:2422-2427 | two edges belong to one road if and only if they have the same name, or no name and the same class |
| `RouteSteps.GroupsDivide` | examples/osm_map_mcp_server/map_service.py:2422-2440 | the groups divide the route: every edge is in exactly one, in order, all of one road, with their total length and ends |
| `RouteSteps.GroupsMaximal` | examples/osm_map_mcp_server/map_service.py:2422-2440 | neighbouring groups have different names or classes |
| `RouteSteps.CollapseConserves` | examples/osm_map_mcp_server/map_service.py:2441-2456 | collapsing the middle to at most 30 groups keeps the joins and the total distance |
| `RouteSteps.CollapseSameStarts` | examples/osm_map_mcp_server/map_service.py:2495-2497 | both collapses keep the same starts |
| `RouteSteps.MakeSteps` | examples/osm_map_mcp_server/map_service.py:2399-2476 | at most 30 steps that join and conserve the route length |
| `RouteSteps.MakePoints` | examples/osm_map_mcp_server/map_service.py:2478-2497 | one point per step, where the step starts |
| `RouteSteps.StepsAndPoints` | examples/osm_map_mcp_server/map_service.py:2399-2497 | the two separate passes agree in length and position |
| `ContextEngine.MakeTurns` | src/knoa_agent/context.py:370-384 | the turn loop computes the turns of a history |
| `ContextEngine.TurnsOneQuestion` | src/knoa_agent/context.py:370-384 | every turn but the first begins with a user message, and no turn holds two questions |
| `ContextEngine.CurrentTurnIs` | src/knoa_agent/context.py:357-368 | the current turn begins at the last user message that is not a runtime context, with the runtime context before it |
| `ContextEngine.AssembleHolds` | src/knoa_agent/context.py:334-355 | the prompt holds the whole history, in order; besides it only the two summary messages at the front, exactly if there is a summary, which they contain, and one runtime context directly before the current turn, exactly if that has none |
| `ContextEngine.TurnsFlat` | src/knoa_agent/context.py:370-384 | the turns joined again are the history: nothing is lost or moved |
| `ContextEngine.AlignedTurns` | src/knoa_agent/context.py:198-216 | aligned histories split into turns of equal lengths |
| `ContextEngine.TrimStale` | src/knoa_agent/context.py:499-533 | contents change, roles, ids and calls do not; no index error unless the durable history is shorter; for aligned histories no user message changes |
| `ContextEngine.CompactTurn` | src/knoa_agent/context.py:536-568 | contents change, roles, ids and calls do not; no index error unless the durable history is shorter; for aligned histories no user message changes |
| `ContextEngine.BoundedKeeps` | src/knoa_agent/context.py:495-497 | a bounded text is the whole text but for white space, or its beginning and an ellipsis at exactly the limit |
| `ContextEngine.CutOnce` | src/knoa_agent/context.py:450-481 | the first Assistant line goes, else the first longest line is shortened, else the first line that is not a User line goes, else the first; the lines strictly shrink; the number of User lines stays, or drops by one when all are |
| `ContextEngine.LinesJoin` | src/knoa_agent/context.py:440-481 | joining the lines of a summary gives it back, less a final newline; no line holds a newline |
| `ContextEngine.FitSummary` | src/knoa_agent/context.py:440-481 | terminates; every summary of the cutting chain before the result is over budget, and the result fits or nothing is left; if it has fewer User lines than the summary had, only User lines remain |
| `ContextEngine.MergedKeeps` | src/knoa_agent/context.py:434-438 | a new summary ends with the newest part, and keeps the older one whole as long as both fit |
| `ContextEngine.DropTurns` | src/knoa_agent/context.py:198-216 | drops the least number of whole turns, from both histories together, that makes the prompt fit (all but one if none does); covered grows by what was dropped, the summary by what was absorbed; aligned histories are cut at the same place, others may end in the index error |
| `ContextEngine.PopTurns` | src/knoa_agent/context.py:198-216 | the loop itself: every prompt with fewer turns dropped was over budget, and it stops at the first that fits; the index error needs two more model turns than durable ones |
| `ContextEngine.Prepare` | src/knoa_agent/context.py:151-287 | for any histories: fails, or returns a durable history with covered + retained unchanged, a whole-turn suffix with every role, id and call, and messages + schemas + reserve within the window; passes a prompt on unchanged if and only if it fits; else, if dropping turns suffices, drops the least number and changes nothing else; refuses schemas if and only if they leave less than 256 tokens; aligned histories stay aligned and never end in an index error; the budget error comes only if even the last step of compaction leaves the prompt too large; what the messages hold is ContextEngine.AssembleHolds |
| `ContextEngine.UserFormsAlike` | src/knoa_agent/runtime.py:980-992 | the block-list and text forms of a user message are in step if and only if the text does not read as a runtime context |
| `ContextEngine.TaggedTextLosesTurn` | src/knoa_agent/context.py:163-216 | a family of failures: for a user text that reads as a runtime context the histories have two turns and one, and dropping one each leaves a model message and nothing durable |
| `ContextEngine.CompactsClosed` | src/knoa_agent/context.py:151-287 | closed pairing, and that every tool message has its call, survive compaction |
| `AbortRepair.FillMissing` | src/knoa_agent/runtime.py:1134-1171 | the scan by snapshot positions while inserting computes the filled history |
| `AbortRepair.MissingIs` | src/knoa_agent/runtime.py:1142-1158 | a response is inserted exactly for the call ids that the scanned run leaves unanswered |
| `AbortRepair.RepairCloses` | src/knoa_agent/runtime.py:1134-1171 | with at most one incomplete message the repaired history is closed |
| `AbortRepair.RepairClosesIff` | src/knoa_agent/runtime.py:1134-1171 | with call ids used once, it is closed if and only if at most one message was incomplete |
| `AbortRepair.TwoIncomplete` | src/knoa_agent/runtime.py:1134-1171 | a family of failures: after two unanswered calls in two turns the second stays unanswered |
| `AbortRepair.RepairPairsIff` | src/knoa_agent/runtime.py:1134-1171 | calls and responses pair up both ways after the repair if and only if nobody calls a tool after an incomplete message (call ids used once) |
| `AbortRepair.CompleteCallAfter` | src/knoa_agent/runtime.py:1134-1171 | a family of failures: one incomplete message and a complete call after it are repaired to a closed history with a response ahead of its call |
| `AbortRepair.StaysUnanswered` | src/knoa_agent/runtime.py:1134-1171 | a message that an earlier insertion has moved is never repaired |
| `AbortRepair.SanitizedKeeps` | src/knoa_agent/runtime.py:1123-1171 | all original messages are kept, in order; only tool responses come between them |
| `AbortRepair.SanitizedOk` | src/knoa_agent/runtime.py:1123-1219 | the repaired history ends with the assistant, is closed if at most one message was incomplete, and has no orphan if nobody called after that one |
| `AbortRepair.Sanitize` | src/knoa_agent/runtime.py:1123-1219 | the whole repair |
| `AbortRepair.ClosingSays` | src/knoa_agent/runtime.py:1172-1219 | the closing message: none exactly if the history ends with an assistant message that calls nothing or says something; else one without calls that begins with the partial answer after a tool or assistant message, and says why the turn ended unless that was a cancellation |
| `AbortRepair.AbortSays` | src/knoa_agent/runtime.py:1153-1171 | an inserted response answers its call and says why there is no result |
| `OpenCalls.OpenExact` | src/knoa_agent/runtime.py:541-774 | reading a conversation from the front computes exactly its unanswered calls, and fails exactly if one was overtaken by a user or assistant message |
| `OpenCalls.ClosedIffNoneOpen` | src/knoa_agent/runtime.py:1134-1171 | closed means no open call; open calls only at the end mean at most one incomplete message |
| `OpenCalls.ReadExact` | src/knoa_agent/runtime.py:541-774 | reading a conversation from the front succeeds if and only if no call was overtaken and no tool message lacks its call |
| `OpenCalls.CleanSnoc` | src/knoa_agent/runtime.py:1084-1087 | a saved history keeps exactly the messages that are not runtime contexts, in order |
| `OpenCalls.CleanReads` | src/knoa_agent/runtime.py:1084-1087 | dropping runtime-context messages changes neither the open calls nor that every tool message has its call |
| `OpenCalls.RepairedGood` | src/knoa_agent/runtime.py:1123-1219 | repairing a conversation whose open calls are all at the end gives one that is closed, without orphans, and ends with the assistant |
| `TurnEvents.MonitorSound` | src/knoa_agent/runtime.py:263-832 | any event log that the monitor accepts is safe: terminal event last, starts within budget and none after it is marked, each start directly followed by its finish (under the same id if ids are echoed), one attempt per request |
| `OpenCalls.VerificationCloses` | src/knoa_agent/runtime.py:693-735 | with GUI verification the conversation stays closed if and only if only the last call of a reply draws a complaint |
| `OpenCalls.ComplaintBetweenCalls` | src/knoa_agent/runtime.py:693-735 | a family of failures: two calls and a complaint after the first |
| `TurnLoop.Session.Attempt` | src/knoa_agent/runtime.py:168-194 | an attempt is retried if and only if it is the first and failed before anything could be observed; then it has delivered nothing and asked for no calls; otherwise its events, text and terminal chunk are those of its stream; without faults and interruptions it always gets there |
| `TurnLoop.Session.StreamModel` | src/knoa_agent/runtime.py:158-194 | the events, the content and the calls are those of one attempt, the second if and only if the first failed quietly |
| `TurnLoop.Session.Save` | src/knoa_agent/runtime.py:1076-1121 | compare-and-set: ends as the awaited operation does, or raises on a conflict; at most one checkpoint per turn, holding the cleaned messages, even if awaiting it is cancelled |
| `TurnLoop.Session.SaveAborted` | src/knoa_agent/runtime.py:1221-1250 | unless a save failed, whatever there is to save is saved, once, as the cleaned repaired history; errors are swallowed, cancellation is not |
| `TurnLoop.Session.Answer` | src/knoa_agent/runtime.py:585-660 | a call that is not cut off reports start and finish directly one after the other and appends exactly its result, a transport failure included |
| `TurnLoop.Session.RunCall` | src/knoa_agent/runtime.py:585-760 | start, finish and result in this order, and nothing else without verification; a failed inspection ends the turn |
| `TurnLoop.Session.RunCalls` | src/knoa_agent/runtime.py:545-760 | after all calls of a reply every call is answered; the budget is never exceeded; without verification it gets through if and only if no call is cut off, no inspection fails and no call comes after the budget was marked, and then the calls are taken as TakenRun and TakenResponses say |
| `TurnLoop.Session.TakenRun` | src/knoa_agent/runtime.py:545-660 | the calls within the budget, and only they, are run, in order, one after the other |
| `TurnLoop.Session.TakenResponses` | src/knoa_agent/runtime.py:545-660 | every call of a reply gets its response, in order: its own result within the budget, the notice beyond it |
| `TurnLoop.Session.UseTools` | src/knoa_agent/runtime.py:541-774 | the reply and the responses to its calls are added; if they use up the budget it is marked in the log, after which no call starts, and a notice added |
| `TurnLoop.Session.MarkExhausted` | src/knoa_agent/runtime.py:762-774 | the mark is logged and the notice keeps the conversation closed |
| `TurnLoop.Session.Conclude` | src/knoa_agent/runtime.py:509-540 | a text reply completes the turn, unless a required image was not seen, exactly if saving works: then the checkpoint is the cleaned history that ends with it |
| `TurnLoop.Session.React` | src/knoa_agent/runtime.py:471-774 | an error or no terminal chunk fails the turn as the provider's failure; a text completes it if it can be saved; calls are run; a turn completes in no other way |
| `TurnLoop.Session.Respond` | src/knoa_agent/runtime.py:404-774 | asking the model and acting on the attempt that counts: a text that can be saved completes the turn with it |
| `TurnLoop.PrepareHistories` | src/knoa_agent/runtime.py:356-393 | a prompt passes unchanged if and only if it fits; compaction keeps every call of the turn answered, and histories in step |
| `TurnLoop.Session.Compact` | src/knoa_agent/runtime.py:356-403 | too large a prompt fails the turn; a prompt that fits goes on with nothing changed; an exception is raised only if the histories are not in step |
| `TurnLoop.Beginning` | src/knoa_agent/runtime.py:280-334 | a turn begins without open calls, and in step if and only if the user's text does not read as a runtime context |
| `TurnLoop.Session.Iterate` | src/knoa_agent/runtime.py:351-774 | one iteration keeps every invariant of the turn, however it ends; left in peace, with a prompt that fits and a text reply, it completes the turn |
| `TurnLoop.Session.Loop` | src/knoa_agent/runtime.py:351-793 | at most the configured number of model requests, and the iteration limit is reported only after exactly that number; exactly one terminal event unless an exception or cancellation leaves the loop |
| `TurnLoop.Session.Handle` | src/knoa_agent/runtime.py:794-832 | the handlers save what was not saved, unless a save fails, and report once |
| `TurnLoop.Session.RunTurn` | src/knoa_agent/runtime.py:263-832 | for any user message: exactly one terminal event, last, unless the asyncio task is cancelled; at most the configured number of requests; starts within budget, none after it is marked, each with its finish under its own id; one attempt per request; at most one checkpoint, exactly one if completed or if there was anything to save and no save failed; every checkpoint closed, without orphans and ending with the assistant; histories in step unless the user's text reads as a runtime context; and without faults and interruptions, with a prompt that fits and a text as first reply, it completes with the checkpoint that FinalAddsAnswer describes |
| `TurnLoop.FinalAddsAnswer` | src/knoa_agent/runtime.py:509-530 | that checkpoint is the stored conversation, the user's message and the answer; the runtime context is not kept |
| `TurnLoop.Session.Converse` | src/knoa_agent/runtime.py:263-832 | every checkpoint saved by any sequence of turns with any user messages is closed, has no orphan and ends with the assistant (verification off, ids echoed) |
| `RetryActions.InvStep` | examples/gitlab_mcp_server/gitlab_client.py:330-364 | every step of any caller and every crash keeps the claim invariant and takes back neither a claim nor a recorded outcome nor a POST |
| `RetryActions.RetriesAtMostOnce` | examples/gitlab_mcp_server/gitlab_client.py:930-1033 | over all interleavings and crashes: at most one POST per key, success only from an accepted POST of the same request, the same for everybody, and at most max_attempts POSTs per job of a batch |
| `RetryActions.RecordedIsFinal` | examples/gitlab_mcp_server/gitlab_client.py:330-349 | a recorded outcome is what every later caller is told |
| `RetryActions.ReuseRejected` | examples/gitlab_mcp_server/gitlab_client.py:339-341 | a key in use for another request lets nobody send or succeed |
| `RetryActions.JobBound` | examples/gitlab_mcp_server/gitlab_client.py:888-926 | distinct attempt keys bound the POSTs per job |
| `RetryClient.Distinct` | examples/gitlab_mcp_server/gitlab_client.py:862 | job ids without duplicates, same set |
| `RetryClient.Client.Claim` | examples/gitlab_mcp_server/gitlab_client.py:330-349 | the claim is a run of the protocol: a taken key is read, a free one becomes pending |
| `RetryClient.Client.Retry` | examples/gitlab_mcp_server/gitlab_client.py:930-1033 | the call is a run of the protocol; none for a taken key, and for a free one a POST is sent if and only if the caller lives and a job's checks pass; success if and only if it was accepted and then recorded; the row left behind is exact |
| `RetryClient.Client.Act` | examples/gitlab_mcp_server/gitlab_client.py:955-1033 | the owner of a fresh claim: blocked checks are recorded as failed, broken ones leave the claim pending, passed ones lead to the POST and its outcome to the record |
| `RetryClient.Client.RetryJob` | examples/gitlab_mcp_server/gitlab_client.py:891-925 | the attempts at one fresh job: each for the job that the one before had started, until one is not due, breaks or their number is used up; exactly these POSTs are sent, and success means that nothing broke |
| `RetryClient.Client.RetryOomJobs` | examples/gitlab_mcp_server/gitlab_client.py:843-928 | a claimed batch is only read; for one that nobody has started, the jobs take turns in order until one breaks, exactly the POSTs that are due are sent, and it succeeds if and only if all had their turn; at most max_attempts POSTs per distinct job over all calls and crashes |
| `CommentActions.InvStep` | examples/jira_mcp_server/jira_client.py:433-472 | every step of any caller, every crash and every foreign comment keeps the claim invariant |
| `CommentActions.CommentsAtMostOnce` | examples/jira_mcp_server/jira_client.py:1434-1524 | over all interleavings and crashes: at most one POST per key, for the request that claimed it; success only after an accepted POST or a marker on the issue |
| `CommentActions.SuccessFinalIff` | examples/jira_mcp_server/jira_client.py:1452-1524 | a recorded success is final over all continuations if and only if every call under way for the key has yet to read the row or can only record the same comment |
| `CommentActions.SuccessCanBeLost` | examples/jira_mcp_server/jira_client.py:1466-1524 | two processes, for every outcome of the POST: a run in which a reported success is overwritten by outcome_unknown, by failed, or by another comment's id |
| `CommentActions.LockedSuccessIsFinal` | examples/jira_mcp_server/jira_client.py:1452-1460 | under the per-key lock a recorded success never changes |
| `CommentActions.Client.BeginAction` | examples/jira_mcp_server/jira_client.py:433-457 | INSERT OR IGNORE: creates the pending row or reports the existing one |
| `CommentActions.Client.AddComment` | examples/jira_mcp_server/jira_client.py:1434-1524 | a run of the protocol: replay of recorded success, refusal of reuse; otherwise a marker on the issue is reported and recorded, and without one the call that created the row, and only it, posts, records the outcome and reports it; success only once recorded and proven |
| `CommentActions.Client.FindOrPost` | examples/jira_mcp_server/jira_client.py:1466-1524 | the listing decides: a comment with the key is taken over, otherwise the creator posts and anybody else reports an unknown outcome |
| `FailureEvents.Source.Poll` | examples/gitlab_mcp_server/gitlab_client.py:757-831 | the first poll is the baseline; a later one reports exactly the new ids whose first look without failure made a snapshot; exactly the ids whose looks all failed stay eligible |
| `FailureEvents.Source.AddFailureEvent` | examples/gitlab_mcp_server/gitlab_client.py:260-288 | stores the event if new and marks it observed in either case |
| `FailureEvents.Serve` | examples/gitlab_mcp_server/gitlab_client.py:226-328 | over any sequence of polls and clean-ups of a new or known source no id is reported twice and no baseline id ever |
| `FailureEvents.MustReportOne` | examples/gitlab_mcp_server/gitlab_client.py:798-831 | a further look changes what must be reported only if it is the deciding one |

## Left out

- SQLite, file locks, fsync, file staging and the change archive: each commit is one atomic step and a crash loses what was not committed.
- The C++ builder, the change downloader and osmium: the builder is the assumption above, change sets are inputs.
- Scope-file tiers (`write_scope`) and when a consolidation is due: the model lets any relation be pruned and any batch with a non-empty deferred file consolidate.
- Access tags to masks (`_route_modes`), road names, speeds, layers and geometry: any functions of tags and positions; edges carry ends, length, modes and name.
- Metadata other than the replication sequence, the journal and the counters.
- UTF-8 decoding of tag texts: the codec works on bytes.
- Floating-point rounding, including `int(len * 0.7)` in the summary squeeze, which is taken as the exact floor; the relative weight of clock and expansion limits is an arbitrary predicate.
- Nearest-node lookup, place search, geocoding, coordinate systems and drawing.
- Step wording, bearings and turn directives: only grouping, distances and points are modelled.
- The system prompt, a constant first message of every request.
- Token estimation, turn summaries, rendered headers and message wording: arbitrary functions and texts; `splitlines` splits at newlines only.
- Tool selection, usage reports and image artifacts of a turn; a consumer that abandons the event stream; model streams that never end; other writers of the same session within one turn.
- `RetryClient.Client.Retry`: the three job checks are one verdict (passed, blocked, failed to read), because only what is recorded afterwards matters here.
- Collisions between a caller's key text and a derived attempt key: attempt keys are a constructor of their own.
- Concurrent polls of one source, and a poll that is cancelled half-way: `FailureEvents` runs polls one after the other.
- The MCP server files, the browser, OSS and Tempo clients, the Codex clients, session and context stores, release scripts: easy members or plumbing.
